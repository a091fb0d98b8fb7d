/** The particle swarm engine (`PSOAlgorithm`): the velocity and position
    recurrence, personal bests and a global best, with no clipping. */
module PSO {
  import opened Space

  /** What `global_best_position` refers to: `initialize` binds it to a row of
      `personal_best_positions` and an improving particle `i` rebinds it to row
      `i` of `positions`. Both are numpy views, so the point it shows follows
      later writes to that row (in particular the particle's next move). */
  datatype GlobalBestView = PersonalBestRow(row: nat) | PositionRow(row: nat)

  /** The inertia weight `w` and the acceleration constants `c1`, `c2`. */
  datatype Coefficients = Coefficients(w: real, c1: real, c2: real)

  /** The engine's state, by particle. */
  datatype Swarm = Swarm(positions: seq<Point>, velocities: seq<Point>,
                         bestPositions: seq<Point>, bestScores: seq<real>,
                         globalView: GlobalBestView, globalBestScore: real)

  predicate Shaped(s: Swarm, n: nat)
  {
    |s.positions| == n && |s.velocities| == n && |s.bestPositions| == n && |s.bestScores| == n &&
    s.globalView.row < n
  }

  /** The point `global_best_position` currently shows. */
  function GlobalBestPoint(s: Swarm): Point
    requires Shaped(s, |s.positions|)
  {
    match s.globalView
    case PersonalBestRow(j) => s.bestPositions[j]
    case PositionRow(j) => s.positions[j]
  }

  /** Particle `j`'s personal best is scored at its own point and no worse
      than where the particle stands, and the global best score is no worse. */
  predicate BestAt(s: Swarm, j: nat, wave: real -> real)
    requires Shaped(s, |s.positions|) && j < |s.positions|
  {
    s.bestScores[j] == Obj(wave, s.bestPositions[j]) &&
    s.bestScores[j] <= Obj(wave, s.positions[j]) &&
    s.globalBestScore <= s.bestScores[j]
  }

  /** The best-score invariant holds for every particle. */
  predicate BestsHold(s: Swarm, wave: real -> real)
    requires Shaped(s, |s.positions|)
  {
    forall j: nat :: j < |s.positions| ==> BestAt(s, j, wave)
  }

  /** Particle `j` is the same in `r` as in `s`. */
  predicate Untouched(r: Swarm, s: Swarm, j: nat)
    requires Shaped(r, |s.positions|) && Shaped(s, |s.positions|) && j < |s.positions|
  {
    r.positions[j] == s.positions[j] && r.velocities[j] == s.velocities[j] &&
    r.bestPositions[j] == s.bestPositions[j] && r.bestScores[j] == s.bestScores[j]
  }

  /** Particle `j`'s personal best in `r` is no worse than in `s`, and differs
      from it only when strictly better. */
  predicate NoWorse(r: Swarm, s: Swarm, j: nat)
    requires Shaped(r, |s.positions|) && Shaped(s, |s.positions|) && j < |s.positions|
  {
    r.bestScores[j] <= s.bestScores[j] &&
    (r.bestPositions[j] != s.bestPositions[j] ==> r.bestScores[j] < s.bestScores[j])
  }

  /** Particle `j` of `r` stands where it stood in `s` plus its velocity in
      `r`, and its personal best is no worse than that spot. */
  predicate MovedFrom(r: Swarm, s: Swarm, j: nat, wave: real -> real)
    requires Shaped(r, |s.positions|) && Shaped(s, |s.positions|) && j < |s.positions|
  {
    r.positions[j] == Point(s.positions[j].x + r.velocities[j].x, s.positions[j].y + r.velocities[j].y) &&
    r.bestScores[j] <= Obj(wave, r.positions[j])
  }

  /** The global best score in `r` is no worse than in `s`, and the global
      best differs from it only when strictly better. */
  predicate GlobalNoWorse(r: Swarm, s: Swarm)
  {
    r.globalBestScore <= s.globalBestScore &&
    (r.globalView != s.globalView ==> r.globalBestScore < s.globalBestScore)
  }

  /** `w*v + c1*r1*(pbest - x) + c2*r2*(gbest - x)`, with the same `r1`, `r2`
      on both axes. A particle sitting on both of its bests only coasts. */
  function Velocity(k: Coefficients, r1: real, r2: real, v: Point, x: Point, pbest: Point, gbest: Point): (u: Point)
    ensures pbest == x && gbest == x ==> u == Point(k.w * v.x, k.w * v.y)
  {
    Point(k.w * v.x + k.c1 * r1 * (pbest.x - x.x) + k.c2 * r2 * (gbest.x - x.x),
          k.w * v.y + k.c1 * r1 * (pbest.y - x.y) + k.c2 * r2 * (gbest.y - x.y))
  }

  /** The first half of `update`'s loop body for particle `i`: the new
      velocity, and a move by it with no clipping. */
  function Advance(s: Swarm, i: nat, r1: real, r2: real, k: Coefficients): (r: Swarm)
    requires Shaped(s, |s.positions|) && i < |s.positions|
    ensures Shaped(r, |s.positions|)
  {
    var x := s.positions[i];
    var v := Velocity(k, r1, r2, s.velocities[i], x, s.bestPositions[i], GlobalBestPoint(s));
    s.(velocities := s.velocities[i := v], positions := s.positions[i := Point(x.x + v.x, x.y + v.y)])
  }

  /** The second half: particle `i` is rescored where it now stands, and its
      personal best and then the global best are replaced on a strictly
      smaller score. */
  function Rescore(s: Swarm, i: nat, wave: real -> real): (r: Swarm)
    requires Shaped(s, |s.positions|) && i < |s.positions|
    ensures Shaped(r, |s.positions|)
  {
    var score := Obj(wave, s.positions[i]);
    if score < s.bestScores[i] then
      var improved := s.(bestScores := s.bestScores[i := score], bestPositions := s.bestPositions[i := s.positions[i]]);
      if score < s.globalBestScore then improved.(globalView := PositionRow(i), globalBestScore := score)
      else improved
    else s
  }

  /** One iteration of `update`'s loop for particle `i`. */
  function FlyStep(s: Swarm, i: nat, r1: real, r2: real, k: Coefficients, wave: real -> real): (r: Swarm)
    requires Shaped(s, |s.positions|) && i < |s.positions|
    ensures Shaped(r, |s.positions|)
  {
    Rescore(Advance(s, i, r1, r2, k), i, wave)
  }

  /** One particle step, for the particle itself: it moves by exactly its new
      velocity, unclipped; its personal best and the global best never get
      worse and change only on strict improvement; and its personal best is no
      worse than where it now stands. */
  lemma FlyStepParticle(s: Swarm, i: nat, r1: real, r2: real, k: Coefficients, wave: real -> real)
    requires Shaped(s, |s.positions|) && i < |s.positions|
    ensures MovedFrom(FlyStep(s, i, r1, r2, k, wave), s, i, wave)
    ensures NoWorse(FlyStep(s, i, r1, r2, k, wave), s, i)
    ensures GlobalNoWorse(FlyStep(s, i, r1, r2, k, wave), s)
  {
  }

  /** One particle step leaves every other particle untouched. */
  lemma FlyStepOthers(s: Swarm, i: nat, r1: real, r2: real, k: Coefficients, wave: real -> real)
    requires Shaped(s, |s.positions|) && i < |s.positions|
    ensures forall j: nat :: j < |s.positions| && j != i ==> Untouched(FlyStep(s, i, r1, r2, k, wave), s, j)
  {
  }

  /** One particle step keeps the best-score invariant. */
  lemma FlyStepBests(s: Swarm, i: nat, r1: real, r2: real, k: Coefficients, wave: real -> real)
    requires Shaped(s, |s.positions|) && i < |s.positions|
    requires BestsHold(s, wave)
    ensures BestsHold(FlyStep(s, i, r1, r2, k, wave), wave)
  {
    var r := FlyStep(s, i, r1, r2, k, wave);
    FlyStepParticle(s, i, r1, r2, k, wave);
    FlyStepOthers(s, i, r1, r2, k, wave);
    forall j: nat | j < |s.positions|
      ensures BestAt(r, j, wave)
    {
      assert BestAt(s, j, wave);
      if j != i {
        assert Untouched(r, s, j);
      }
    }
  }

  /** The first `m` iterations of `update`'s loop; `r1s[i]`, `r2s[i]` are particle
      `i`'s two `np.random.rand()` draws. */
  function Fly(s: Swarm, r1s: seq<real>, r2s: seq<real>, m: nat, k: Coefficients, wave: real -> real): (r: Swarm)
    requires Shaped(s, |s.positions|) && m <= |s.positions|
    requires |r1s| == |s.positions| && |r2s| == |s.positions|
    ensures Shaped(r, |s.positions|)
    decreases m, 1
  {
    if m == 0 then s else FlyThrough(s, r1s, r2s, m, k, wave)
  }

  /** The state right after particle `m - 1` has flown. It is split from `Fly`
      so that a proof about the loop unfolds one iteration at a time. */
  function FlyThrough(s: Swarm, r1s: seq<real>, r2s: seq<real>, m: nat, k: Coefficients, wave: real -> real): (r: Swarm)
    requires Shaped(s, |s.positions|) && 0 < m <= |s.positions|
    requires |r1s| == |s.positions| && |r2s| == |s.positions|
    ensures Shaped(r, |s.positions|)
    decreases m, 0
  {
    FlyStep(Fly(s, r1s, r2s, m - 1, k, wave), m - 1, r1s[m - 1], r2s[m - 1], k, wave)
  }

  /** Iteration `i` of the loop, for particle `i` itself, stated between the
      states before and after it. */
  lemma FlyParticleAt(s: Swarm, r1s: seq<real>, r2s: seq<real>, i: nat, m: nat, k: Coefficients, wave: real -> real)
    requires Shaped(s, |s.positions|) && m == i + 1 && m <= |s.positions|
    requires |r1s| == |s.positions| && |r2s| == |s.positions|
    ensures MovedFrom(Fly(s, r1s, r2s, m, k, wave), Fly(s, r1s, r2s, i, k, wave), i, wave)
    ensures NoWorse(Fly(s, r1s, r2s, m, k, wave), Fly(s, r1s, r2s, i, k, wave), i)
    ensures GlobalNoWorse(Fly(s, r1s, r2s, m, k, wave), Fly(s, r1s, r2s, i, k, wave))
  {
    var prev := Fly(s, r1s, r2s, i, k, wave);
    assert FlyThrough(s, r1s, r2s, m, k, wave) == FlyStep(prev, i, r1s[i], r2s[i], k, wave);
    FlyStepParticle(prev, i, r1s[i], r2s[i], k, wave);
  }

  /** Iteration `i` of the loop leaves every other particle untouched. */
  lemma FlyOthersAt(s: Swarm, r1s: seq<real>, r2s: seq<real>, i: nat, m: nat, k: Coefficients, wave: real -> real)
    requires Shaped(s, |s.positions|) && m == i + 1 && m <= |s.positions|
    requires |r1s| == |s.positions| && |r2s| == |s.positions|
    ensures forall j: nat :: j < |s.positions| && j != i ==>
      Untouched(Fly(s, r1s, r2s, m, k, wave), Fly(s, r1s, r2s, i, k, wave), j)
  {
    var prev := Fly(s, r1s, r2s, i, k, wave);
    assert FlyThrough(s, r1s, r2s, m, k, wave) == FlyStep(prev, i, r1s[i], r2s[i], k, wave);
    FlyStepOthers(prev, i, r1s[i], r2s[i], k, wave);
  }

  /** Iteration `i` of the loop keeps the best-score invariant. */
  lemma FlyBestsAt(s: Swarm, r1s: seq<real>, r2s: seq<real>, i: nat, m: nat, k: Coefficients, wave: real -> real)
    requires Shaped(s, |s.positions|) && m == i + 1 && m <= |s.positions|
    requires |r1s| == |s.positions| && |r2s| == |s.positions|
    requires BestsHold(Fly(s, r1s, r2s, i, k, wave), wave)
    ensures BestsHold(Fly(s, r1s, r2s, m, k, wave), wave)
  {
    var prev := Fly(s, r1s, r2s, i, k, wave);
    assert FlyThrough(s, r1s, r2s, m, k, wave) == FlyStep(prev, i, r1s[i], r2s[i], k, wave);
    FlyStepBests(prev, i, r1s[i], r2s[i], k, wave);
  }

  /** Over one pass of the loop the global best score never gets worse and
      the global best moves only on a strict improvement. */
  lemma {:induction false} FlyKeepsGlobal(s: Swarm, r1s: seq<real>, r2s: seq<real>, m: nat, k: Coefficients, wave: real -> real)
    requires Shaped(s, |s.positions|) && m <= |s.positions|
    requires |r1s| == |s.positions| && |r2s| == |s.positions|
    ensures GlobalNoWorse(Fly(s, r1s, r2s, m, k, wave), s)
    decreases m
  {
    if m > 0 {
      FlyKeepsGlobal(s, r1s, r2s, m - 1, k, wave);
      FlyParticleAt(s, r1s, r2s, m - 1, m, k, wave);
    }
  }

  /** The particles the pass has not reached yet are untouched. */
  lemma {:induction false} FlyLeavesRest(s: Swarm, r1s: seq<real>, r2s: seq<real>, m: nat, k: Coefficients, wave: real -> real)
    requires Shaped(s, |s.positions|) && m <= |s.positions|
    requires |r1s| == |s.positions| && |r2s| == |s.positions|
    ensures forall j: nat :: m <= j < |s.positions| ==> Untouched(Fly(s, r1s, r2s, m, k, wave), s, j)
    decreases m
  {
    if m > 0 {
      FlyLeavesRest(s, r1s, r2s, m - 1, k, wave);
      FlyOthersAt(s, r1s, r2s, m - 1, m, k, wave);
      var prev := Fly(s, r1s, r2s, m - 1, k, wave);
      var r := Fly(s, r1s, r2s, m, k, wave);
      forall j: nat | m <= j < |s.positions|
        ensures Untouched(r, s, j)
      {
        assert Untouched(prev, s, j) && Untouched(r, prev, j);
      }
    }
  }

  /** Over one pass of the loop no personal best score gets worse, and a
      personal best moves only on a strict improvement. */
  lemma {:induction false} FlyKeepsPersonal(s: Swarm, r1s: seq<real>, r2s: seq<real>, m: nat, k: Coefficients, wave: real -> real)
    requires Shaped(s, |s.positions|) && m <= |s.positions|
    requires |r1s| == |s.positions| && |r2s| == |s.positions|
    ensures forall j: nat :: j < |s.positions| ==> NoWorse(Fly(s, r1s, r2s, m, k, wave), s, j)
    decreases m
  {
    if m > 0 {
      FlyKeepsPersonal(s, r1s, r2s, m - 1, k, wave);
      FlyParticleAt(s, r1s, r2s, m - 1, m, k, wave);
      FlyOthersAt(s, r1s, r2s, m - 1, m, k, wave);
      var prev := Fly(s, r1s, r2s, m - 1, k, wave);
      var r := Fly(s, r1s, r2s, m, k, wave);
      forall j: nat | j < |s.positions|
        ensures NoWorse(r, s, j)
      {
        assert NoWorse(prev, s, j);
        if j != m - 1 {
          assert Untouched(r, prev, j);
        }
      }
    }
  }

  /** Every particle the pass has reached moved by exactly its new velocity
      from where it stood, and its personal best is no worse than where it
      now stands. */
  lemma {:induction false} FlyMovesReached(s: Swarm, r1s: seq<real>, r2s: seq<real>, m: nat, k: Coefficients, wave: real -> real)
    requires Shaped(s, |s.positions|) && m <= |s.positions|
    requires |r1s| == |s.positions| && |r2s| == |s.positions|
    ensures forall j: nat :: j < m ==> MovedFrom(Fly(s, r1s, r2s, m, k, wave), s, j, wave)
    decreases m
  {
    if m > 0 {
      FlyMovesReached(s, r1s, r2s, m - 1, k, wave);
      FlyLeavesRest(s, r1s, r2s, m - 1, k, wave);
      FlyParticleAt(s, r1s, r2s, m - 1, m, k, wave);
      FlyOthersAt(s, r1s, r2s, m - 1, m, k, wave);
      var prev := Fly(s, r1s, r2s, m - 1, k, wave);
      var r := Fly(s, r1s, r2s, m, k, wave);
      assert Untouched(prev, s, m - 1);
      forall j: nat | j < m
        ensures MovedFrom(r, s, j, wave)
      {
        if j < m - 1 {
          assert MovedFrom(prev, s, j, wave) && Untouched(r, prev, j);
        }
      }
    }
  }

  /** One pass of the loop keeps the best-score invariant. */
  lemma {:induction false} FlyKeepsBests(s: Swarm, r1s: seq<real>, r2s: seq<real>, m: nat, k: Coefficients, wave: real -> real)
    requires Shaped(s, |s.positions|) && m <= |s.positions|
    requires |r1s| == |s.positions| && |r2s| == |s.positions|
    requires BestsHold(s, wave)
    ensures BestsHold(Fly(s, r1s, r2s, m, k, wave), wave)
    decreases m
  {
    if m > 0 {
      FlyKeepsBests(s, r1s, r2s, m - 1, k, wave);
      FlyBestsAt(s, r1s, r2s, m - 1, m, k, wave);
    }
  }

  class PSOEngine {
    const numParticles: nat
    const searchSpace: SearchSpace
    const coefficients: Coefficients
    const wave: real -> real
    var positions: array<Point>
    var velocities: array<Point>
    var personalBestPositions: array<Point>
    var personalBestScores: array<real>
    var globalBestPosition: GlobalBestView
    var globalBestScore: real

    ghost function Current(): Swarm
      reads this, positions, velocities, personalBestPositions, personalBestScores
    {
      Swarm(positions[..], velocities[..], personalBestPositions[..], personalBestScores[..],
            globalBestPosition, globalBestScore)
    }

    /** The arrays are distinct, one entry per particle, and the global view names a row. */
    ghost predicate Framed()
      reads this
    {
      numParticles >= 1 &&
      positions.Length == numParticles && velocities.Length == numParticles &&
      personalBestPositions.Length == numParticles && personalBestScores.Length == numParticles &&
      positions != velocities && positions != personalBestPositions && velocities != personalBestPositions &&
      globalBestPosition.row < numParticles
    }

    ghost predicate Valid()
      reads this, positions, velocities, personalBestPositions, personalBestScores
    {
      Framed() && BestsHold(Current(), wave)
    }

    /** `__init__` then `initialize`: positions drawn in the box, velocities drawn
        in [-1, 1) per axis, personal bests a copy of the positions, and the
        global best the first smallest of them, viewing its personal-best row.
        `np.argmin` of no particles raises, so there is at least one. */
    constructor (numParticles: nat, searchSpace: SearchSpace, w: real, c1: real, c2: real, wave: real -> real,
                 draws: seq<Point>, velocityDraws: seq<Point>)
      requires numParticles >= 1 && |draws| == numParticles && |velocityDraws| == numParticles
      requires forall t :: 0 <= t < numParticles ==> InBox(draws[t], searchSpace)
      requires forall t :: 0 <= t < numParticles ==>
        -1.0 <= velocityDraws[t].x < 1.0 && -1.0 <= velocityDraws[t].y < 1.0
      ensures Valid()
      ensures fresh(positions) && fresh(velocities) && fresh(personalBestPositions) && fresh(personalBestScores)
      ensures this.numParticles == numParticles && this.searchSpace == searchSpace
      ensures coefficients == Coefficients(w, c1, c2) && this.wave == wave
      ensures positions[..] == draws && velocities[..] == velocityDraws && personalBestPositions[..] == draws
      ensures forall i :: 0 <= i < numParticles ==> personalBestScores[i] == Obj(wave, positions[i])
      ensures globalBestPosition == PersonalBestRow(ArgMin(personalBestScores[..]))
      ensures globalBestScore == personalBestScores[ArgMin(personalBestScores[..])]
    {
      this.numParticles := numParticles;
      this.searchSpace := searchSpace;
      this.coefficients := Coefficients(w, c1, c2);
      this.wave := wave;
      var x := NewRows(draws);
      var v := NewRows(velocityDraws);
      var pbest := NewRows(draws);
      var scores := Evaluate(wave, x);
      var index := ArgMin(scores[..]);
      positions := x;
      velocities := v;
      personalBestPositions := pbest;
      personalBestScores := scores;
      globalBestPosition := PersonalBestRow(index);
      globalBestScore := scores[index];
    }

    /** `initialize`: as the constructor, on an existing engine. */
    method Initialize(draws: seq<Point>, velocityDraws: seq<Point>)
      requires numParticles >= 1 && |draws| == numParticles && |velocityDraws| == numParticles
      requires forall t :: 0 <= t < numParticles ==> InBox(draws[t], searchSpace)
      requires forall t :: 0 <= t < numParticles ==>
        -1.0 <= velocityDraws[t].x < 1.0 && -1.0 <= velocityDraws[t].y < 1.0
      modifies this
      ensures Valid()
      ensures fresh(positions) && fresh(velocities) && fresh(personalBestPositions) && fresh(personalBestScores)
      ensures positions[..] == draws && velocities[..] == velocityDraws && personalBestPositions[..] == draws
      ensures forall i :: 0 <= i < numParticles ==> personalBestScores[i] == Obj(wave, positions[i])
      ensures globalBestPosition == PersonalBestRow(ArgMin(personalBestScores[..]))
      ensures globalBestScore == personalBestScores[ArgMin(personalBestScores[..])]
    {
      positions := NewRows(draws);
      velocities := NewRows(velocityDraws);
      personalBestPositions := NewRows(draws);
      personalBestScores := Evaluate(wave, positions);
      var index := ArgMin(personalBestScores[..]);
      globalBestPosition := PersonalBestRow(index);
      globalBestScore := personalBestScores[index];
    }

    /** `update`: every particle in turn with its own two draws in [0, 1). The
        invariant is kept, the global best score never gets worse, and no
        personal best score gets worse. */
    method Update(r1s: seq<real>, r2s: seq<real>)
      requires Valid()
      requires |r1s| == numParticles && |r2s| == numParticles
      requires forall i :: 0 <= i < numParticles ==> 0.0 <= r1s[i] < 1.0 && 0.0 <= r2s[i] < 1.0
      modifies this`globalBestPosition, this`globalBestScore
      modifies positions, velocities, personalBestPositions, personalBestScores
      ensures Valid()
      ensures Current() == Fly(old(Current()), r1s, r2s, numParticles, coefficients, wave)
      ensures globalBestScore <= old(globalBestScore)
      ensures forall i :: 0 <= i < numParticles ==> personalBestScores[i] <= old(personalBestScores[i])
    {
      ghost var s0 := Current();
      MoveAll(r1s, r2s);
      FlyKeepsGlobal(s0, r1s, r2s, numParticles, coefficients, wave);
      FlyKeepsPersonal(s0, r1s, r2s, numParticles, coefficients, wave);
      FlyKeepsBests(s0, r1s, r2s, numParticles, coefficients, wave);
      forall i | 0 <= i < numParticles
        ensures personalBestScores[i] <= old(personalBestScores[i])
      {
        assert NoWorse(Current(), s0, i);
      }
    }

    /** The loop of `update` over the particles, in index order. */
    method MoveAll(r1s: seq<real>, r2s: seq<real>)
      requires Framed()
      requires |r1s| == numParticles && |r2s| == numParticles
      modifies this`globalBestPosition, this`globalBestScore
      modifies positions, velocities, personalBestPositions, personalBestScores
      ensures Framed()
      ensures Current() == Fly(old(Current()), r1s, r2s, numParticles, coefficients, wave)
    {
      ghost var s0 := Current();
      var i := 0;
      while i < numParticles
        invariant 0 <= i <= numParticles
        invariant Framed()
        invariant Current() == Fly(s0, r1s, r2s, i, coefficients, wave)
      {
        MoveParticle(i, r1s[i], r2s[i]);
        assert Current() == FlyThrough(s0, r1s, r2s, i + 1, coefficients, wave);
        i := i + 1;
      }
    }

    /** The body of `update`'s loop for particle `i`. */
    method MoveParticle(i: nat, r1: real, r2: real)
      requires Framed() && i < numParticles
      modifies this`globalBestPosition, this`globalBestScore
      modifies positions, velocities, personalBestPositions, personalBestScores
      ensures Framed()
      ensures Current() == FlyStep(old(Current()), i, r1, r2, coefficients, wave)
    {
      AdvanceParticle(i, r1, r2);
      RescoreParticle(i);
    }

    /** The new velocity of particle `i`, and its move. */
    method AdvanceParticle(i: nat, r1: real, r2: real)
      requires Framed() && i < numParticles
      modifies positions, velocities
      ensures Framed()
      ensures Current() == Advance(old(Current()), i, r1, r2, coefficients)
    {
      ghost var s0 := Current();
      var gbest := match globalBestPosition
        case PersonalBestRow(j) => personalBestPositions[j]
        case PositionRow(j) => positions[j];
      assert gbest == GlobalBestPoint(s0);
      var v := Velocity(coefficients, r1, r2, velocities[i], positions[i], personalBestPositions[i], gbest);
      velocities[i] := v;
      positions[i] := Point(positions[i].x + v.x, positions[i].y + v.y);
    }

    /** The rescore of particle `i` and the best updates. */
    method RescoreParticle(i: nat)
      requires Framed() && i < numParticles
      modifies this`globalBestPosition, this`globalBestScore
      modifies personalBestPositions, personalBestScores
      ensures Framed()
      ensures Current() == Rescore(old(Current()), i, wave)
    {
      var score := Obj(wave, positions[i]);
      if score < personalBestScores[i] {
        personalBestScores[i] := score;
        personalBestPositions[i] := positions[i];
        if score < globalBestScore {
          globalBestPosition := PositionRow(i);
          globalBestScore := score;
        }
      }
    }

    /** `get_positions`: the two coordinate columns and a freshly computed score
        per particle, in index order; nothing changes. */
    method GetPositions() returns (xs: seq<real>, ys: seq<real>, zs: seq<real>)
      requires Valid()
      ensures |xs| == numParticles && |ys| == numParticles && |zs| == numParticles
      ensures forall i :: 0 <= i < numParticles ==>
        xs[i] == positions[i].x && ys[i] == positions[i].y && zs[i] == Schwefel(wave, xs[i], ys[i]) &&
        personalBestScores[i] <= zs[i]
    {
      xs := seq(positions.Length, i requires 0 <= i < positions.Length reads this, positions => positions[i].x);
      ys := seq(positions.Length, i requires 0 <= i < positions.Length reads this, positions => positions[i].y);
      zs := [];
      var i := 0;
      while i < positions.Length
        invariant 0 <= i <= positions.Length
        invariant |zs| == i
        invariant forall j :: 0 <= j < i ==> zs[j] == Schwefel(wave, positions[j].x, positions[j].y)
      {
        zs := zs + [Schwefel(wave, positions[i].x, positions[i].y)];
        i := i + 1;
      }
      forall j | 0 <= j < numParticles
        ensures personalBestScores[j] <= zs[j]
      {
        assert BestAt(Current(), j, wave);
      }
    }
  }
}
