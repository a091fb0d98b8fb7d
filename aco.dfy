/** The ant colony engine (`ACOAlgorithm`): a clipped random walk per ant, a
    pheromone scalar per ant updated by decay plus attractiveness, and a
    best-score record. */
module ACO {
  import opened Space

  /** What `best_position` refers to. `initialize` binds it to a row of
      `positions` (a numpy view, so it follows later writes to that row);
      `update` binds it to the clipped array of an improving move, which no
      later write touches. */
  datatype BestPosition = ViewOf(row: nat) | Own(point: Point)

  /** The engine's state, by ant. */
  datatype Trail = Trail(positions: seq<Point>, scores: seq<real>, pheromone: seq<real>,
                         bestScore: real, best: BestPosition)

  predicate Shaped(t: Trail, n: nat)
  {
    |t.positions| == n && |t.scores| == n && |t.pheromone| == n
  }

  /** The point `best_position` currently shows. */
  function BestPoint(t: Trail): Point
    requires t.best.ViewOf? ==> t.best.row < |t.positions|
  {
    match t.best
    case ViewOf(row) => t.positions[row]
    case Own(p) => p
  }

  /** The moves of one `update`: per ant and axis a draw of `np.random.uniform(-10, 10)`. */
  predicate ValidOffsets(offsets: seq<Point>, n: nat)
  {
    |offsets| == n &&
    forall i :: 0 <= i < n ==>
      -10.0 <= offsets[i].x < 10.0 && -10.0 <= offsets[i].y < 10.0
  }

  /** An ant's move: its position plus its offset, clipped to the box. The new
      position is in the box, within 10 of the old one on each axis when the
      old one was in the box. */
  function Move(p: Point, offset: Point, space: SearchSpace): (q: Point)
    requires space.lo <= space.hi
    requires -10.0 <= offset.x < 10.0 && -10.0 <= offset.y < 10.0
    ensures InBox(q, space)
    ensures InBox(p, space) ==> -10.0 <= q.x - p.x < 10.0 && -10.0 <= q.y - p.y < 10.0
  {
    ClipPoint(Point(p.x + offset.x, p.y + offset.y), space)
  }

  /** The pheromone recurrence `(1 - decay) * pheromone + alpha * (1 / (1 + score))`.
      numpy would give an infinity when `1 + score` is zero; the model excludes it. */
  function Deposit(pheromone: real, score: real, alpha: real, decay: real): real
    requires 1.0 + score != 0.0
  {
    (1.0 - decay) * pheromone + alpha * (1.0 / (1.0 + score))
  }

  /** No ant's new score makes the attractiveness `1 / (1 + score)` divide by zero. */
  predicate Attractive(positions: seq<Point>, offsets: seq<Point>, space: SearchSpace, wave: real -> real)
    requires space.lo <= space.hi
    requires ValidOffsets(offsets, |positions|)
  {
    forall i :: 0 <= i < |positions| ==> 1.0 + Obj(wave, Move(positions[i], offsets[i], space)) != 0.0
  }

  /** One iteration of `update`'s loop: ant `i` moves, is rescored, updates its
      pheromone, and takes over the record on a strictly smaller score. */
  function AntStep(t: Trail, i: nat, offset: Point, alpha: real, decay: real,
                   space: SearchSpace, wave: real -> real): (r: Trail)
    requires Shaped(t, |t.positions|) && i < |t.positions|
    requires space.lo <= space.hi
    requires -10.0 <= offset.x < 10.0 && -10.0 <= offset.y < 10.0
    requires 1.0 + Obj(wave, Move(t.positions[i], offset, space)) != 0.0
    ensures Shaped(r, |t.positions|)
  {
    var p := Move(t.positions[i], offset, space);
    var s := Obj(wave, p);
    var moved := t.(positions := t.positions[i := p], scores := t.scores[i := s],
                    pheromone := t.pheromone[i := Deposit(t.pheromone[i], s, alpha, decay)]);
    if s < t.bestScore then moved.(bestScore := s, best := Own(p)) else moved
  }

  /** Ant `j` of `r` moved from `from` by `offset`: it is in the box, scored
      where it stands, no better than the record, and its pheromone follows
      the recurrence from `pheromone` with its new score. */
  predicate Landed(r: Trail, j: nat, from: Point, offset: Point, pheromone: real, alpha: real, decay: real,
                   space: SearchSpace, wave: real -> real)
    requires Shaped(r, |r.positions|) && j < |r.positions| && space.lo <= space.hi
    requires -10.0 <= offset.x < 10.0 && -10.0 <= offset.y < 10.0
    requires 1.0 + Obj(wave, Move(from, offset, space)) != 0.0
  {
    r.positions[j] == Move(from, offset, space) && InBox(r.positions[j], space) &&
    r.scores[j] == Obj(wave, r.positions[j]) && r.bestScore <= r.scores[j] &&
    r.pheromone[j] == Deposit(pheromone, r.scores[j], alpha, decay)
  }

  /** Ant `j` has the same position, score and pheromone in `r` as in `t`. */
  predicate Untouched(r: Trail, t: Trail, j: nat)
    requires Shaped(r, |t.positions|) && Shaped(t, |t.positions|) && j < |t.positions|
  {
    r.positions[j] == t.positions[j] && r.scores[j] == t.scores[j] && r.pheromone[j] == t.pheromone[j]
  }

  /** The record of `r` is no worse than that of `t`, and differs from it only
      after a strict improvement, as an own copy of a point. */
  predicate RecordNoWorse(r: Trail, t: Trail)
  {
    r.bestScore <= t.bestScore && (r.best != t.best ==> r.bestScore < t.bestScore && r.best.Own?)
  }

  /** Once the record is an own copy of a point, the best score is that
      point's objective. A row view carries no such promise: the row moves on. */
  predicate OwnScored(t: Trail, wave: real -> real)
  {
    t.best.Own? ==> t.bestScore == Obj(wave, BestPoint(t))
  }

  /** One ant step: the ant lands in the box, within 10 of where it stood, and
      is scored there; its pheromone follows the recurrence; the record never
      gets worse, changes only on strict improvement (to an own copy of the new
      point) and is no worse than the ant; the other ants are untouched. */
  lemma AntStepKeeps(t: Trail, i: nat, offset: Point, alpha: real, decay: real,
                     space: SearchSpace, wave: real -> real)
    requires Shaped(t, |t.positions|) && i < |t.positions|
    requires space.lo <= space.hi
    requires -10.0 <= offset.x < 10.0 && -10.0 <= offset.y < 10.0
    requires 1.0 + Obj(wave, Move(t.positions[i], offset, space)) != 0.0
    ensures Landed(AntStep(t, i, offset, alpha, decay, space, wave), i, t.positions[i], offset, t.pheromone[i], alpha, decay, space, wave)
    ensures RecordNoWorse(AntStep(t, i, offset, alpha, decay, space, wave), t)
    ensures AntStep(t, i, offset, alpha, decay, space, wave).best != t.best ==>
      AntStep(t, i, offset, alpha, decay, space, wave).best == Own(AntStep(t, i, offset, alpha, decay, space, wave).positions[i])
    ensures forall j: nat :: j < |t.positions| && j != i ==> Untouched(AntStep(t, i, offset, alpha, decay, space, wave), t, j)
    ensures OwnScored(t, wave) ==> OwnScored(AntStep(t, i, offset, alpha, decay, space, wave), wave)
  {
  }

  /** The first `m` iterations of `update`'s loop over the ants. Ant `i` moves,
      is rescored, updates its pheromone, and takes over the record on a
      strictly smaller score; the ants after it are not touched yet. */
  function Walk(t: Trail, offsets: seq<Point>, m: nat, alpha: real, decay: real,
                space: SearchSpace, wave: real -> real): (r: Trail)
    requires Shaped(t, |t.positions|) && m <= |t.positions|
    requires space.lo <= space.hi
    requires ValidOffsets(offsets, |t.positions|) && Attractive(t.positions, offsets, space, wave)
    ensures Shaped(r, |t.positions|)
    ensures forall j :: m <= j < |t.positions| ==> r.positions[j] == t.positions[j]
    decreases m, 1
  {
    if m == 0 then t else WalkThrough(t, offsets, m, alpha, decay, space, wave)
  }

  /** The state right after ant `m - 1` has moved. It is split from `Walk` so
      that a proof about the loop unfolds one iteration at a time. */
  function WalkThrough(t: Trail, offsets: seq<Point>, m: nat, alpha: real, decay: real,
                       space: SearchSpace, wave: real -> real): (r: Trail)
    requires Shaped(t, |t.positions|) && 0 < m <= |t.positions|
    requires space.lo <= space.hi
    requires ValidOffsets(offsets, |t.positions|) && Attractive(t.positions, offsets, space, wave)
    ensures Shaped(r, |t.positions|)
    ensures forall j :: m <= j < |t.positions| ==> r.positions[j] == t.positions[j]
    decreases m, 0
  {
    AntStep(Walk(t, offsets, m - 1, alpha, decay, space, wave), m - 1, offsets[m - 1], alpha, decay, space, wave)
  }

  /** What one pass of the loop guarantees: every moved ant is in the box, is
      scored at its new position, is no better than the record, and carries
      the pheromone recurrence of its new score; the ants not yet reached are
      as they were; the record never gets worse and changes only on strict
      improvement. */
  lemma {:induction false} WalkKeeps(t: Trail, offsets: seq<Point>, m: nat, alpha: real, decay: real,
                                     space: SearchSpace, wave: real -> real)
    requires Shaped(t, |t.positions|) && m <= |t.positions|
    requires space.lo <= space.hi
    requires ValidOffsets(offsets, |t.positions|) && Attractive(t.positions, offsets, space, wave)
    ensures RecordNoWorse(Walk(t, offsets, m, alpha, decay, space, wave), t)
    ensures forall j: nat :: j < m ==>
      Landed(Walk(t, offsets, m, alpha, decay, space, wave), j, t.positions[j], offsets[j], t.pheromone[j], alpha, decay, space, wave)
    ensures forall j: nat :: m <= j < |t.positions| ==> Untouched(Walk(t, offsets, m, alpha, decay, space, wave), t, j)
    ensures OwnScored(t, wave) ==> OwnScored(Walk(t, offsets, m, alpha, decay, space, wave), wave)
    decreases m
  {
    if m > 0 {
      WalkKeeps(t, offsets, m - 1, alpha, decay, space, wave);
      var i := m - 1;
      var prev := Walk(t, offsets, i, alpha, decay, space, wave);
      var r := Walk(t, offsets, m, alpha, decay, space, wave);
      assert WalkThrough(t, offsets, m, alpha, decay, space, wave) == AntStep(prev, i, offsets[i], alpha, decay, space, wave);
      assert Untouched(prev, t, i);
      AntStepKeeps(prev, i, offsets[i], alpha, decay, space, wave);
      forall j: nat | j < m
        ensures Landed(r, j, t.positions[j], offsets[j], t.pheromone[j], alpha, decay, space, wave)
      {
        if j < i {
          assert Landed(prev, j, t.positions[j], offsets[j], t.pheromone[j], alpha, decay, space, wave);
          assert Untouched(r, prev, j);
        }
      }
      forall j: nat | m <= j < |t.positions|
        ensures Untouched(r, t, j)
      {
        assert Untouched(prev, t, j) && Untouched(r, prev, j);
      }
    }
  }

  /** After a whole pass the record is no worse than any ant's current score. */
  lemma RecordBelowEveryAnt(t: Trail, offsets: seq<Point>, alpha: real, decay: real,
                            space: SearchSpace, wave: real -> real)
    requires Shaped(t, |t.positions|) && space.lo <= space.hi
    requires ValidOffsets(offsets, |t.positions|) && Attractive(t.positions, offsets, space, wave)
    ensures forall j :: 0 <= j < |t.positions| ==>
      Walk(t, offsets, |t.positions|, alpha, decay, space, wave).bestScore <= Walk(t, offsets, |t.positions|, alpha, decay, space, wave).scores[j] &&
      Walk(t, offsets, |t.positions|, alpha, decay, space, wave).scores[j] == Obj(wave, Walk(t, offsets, |t.positions|, alpha, decay, space, wave).positions[j])
  {
    var n := |t.positions|;
    WalkKeeps(t, offsets, n, alpha, decay, space, wave);
    forall j | 0 <= j < n
      ensures Walk(t, offsets, n, alpha, decay, space, wave).bestScore <= Walk(t, offsets, n, alpha, decay, space, wave).scores[j]
      ensures Walk(t, offsets, n, alpha, decay, space, wave).scores[j] == Obj(wave, Walk(t, offsets, n, alpha, decay, space, wave).positions[j])
    {
      assert Landed(Walk(t, offsets, n, alpha, decay, space, wave), j, t.positions[j], offsets[j], t.pheromone[j], alpha, decay, space, wave);
    }
  }

  class ACOEngine {
    const numAnts: nat
    const searchSpace: SearchSpace
    const alpha: real
    const decay: real
    const wave: real -> real
    var positions: array<Point>
    var scores: array<real>
    var pheromoneMap: array<real>
    var bestScore: real
    var bestPosition: BestPosition

    ghost function Current(): Trail
      reads this, positions, scores, pheromoneMap
    {
      Trail(positions[..], scores[..], pheromoneMap[..], bestScore, bestPosition)
    }

    /** Between calls: every ant in the box and scored where it stands, the
        record no worse than any ant, and an own record scored at its point. */
    ghost predicate Valid()
      reads this, positions, scores, pheromoneMap
    {
      numAnts >= 1 && searchSpace.lo <= searchSpace.hi &&
      positions.Length == numAnts && scores.Length == numAnts && pheromoneMap.Length == numAnts &&
      scores != pheromoneMap &&
      (bestPosition.ViewOf? ==> bestPosition.row < numAnts) &&
      OwnScored(Current(), wave) &&
      forall i :: 0 <= i < numAnts ==>
        InBox(positions[i], searchSpace) && scores[i] == Obj(wave, positions[i]) && bestScore <= scores[i]
    }

    /** `__init__` then `initialize`; `draws` are the rows of
        `np.random.uniform(lo, hi, (num_ants, 2))`. `np.min` of no ants raises,
        so there is at least one. */
    constructor (numAnts: nat, searchSpace: SearchSpace, alpha: real, decay: real, wave: real -> real, draws: seq<Point>)
      requires numAnts >= 1 && |draws| == numAnts
      requires forall t :: 0 <= t < |draws| ==> InBox(draws[t], searchSpace)
      ensures Valid() && fresh(positions) && fresh(scores) && fresh(pheromoneMap)
      ensures this.numAnts == numAnts && this.searchSpace == searchSpace && this.alpha == alpha
      ensures this.decay == decay && this.wave == wave
      ensures positions[..] == draws
      ensures forall i :: 0 <= i < numAnts ==> pheromoneMap[i] == 1.0
      ensures bestPosition == ViewOf(ArgMin(scores[..])) && bestScore == scores[ArgMin(scores[..])]
    {
      this.numAnts := numAnts;
      this.searchSpace := searchSpace;
      this.alpha := alpha;
      this.decay := decay;
      this.wave := wave;
      var rows := NewRows(draws);
      var s := Evaluate(wave, rows);
      var index := ArgMin(s[..]);
      positions := rows;
      scores := s;
      pheromoneMap := new real[numAnts](_ => 1.0);
      bestScore := s[index];
      bestPosition := ViewOf(index);
    }

    /** `initialize`: fresh in-box positions, their scores, pheromone 1.0 for
        every ant, and the record set to the smallest score, viewing its row. */
    method Initialize(draws: seq<Point>)
      requires numAnts >= 1 && searchSpace.lo <= searchSpace.hi && |draws| == numAnts
      requires forall t :: 0 <= t < |draws| ==> InBox(draws[t], searchSpace)
      modifies this
      ensures Valid() && fresh(positions) && fresh(scores) && fresh(pheromoneMap)
      ensures positions[..] == draws
      ensures forall i :: 0 <= i < numAnts ==> pheromoneMap[i] == 1.0
      ensures bestPosition == ViewOf(ArgMin(scores[..])) && bestScore == scores[ArgMin(scores[..])]
    {
      positions := NewRows(draws);
      scores := Evaluate(wave, positions);
      pheromoneMap := new real[numAnts](_ => 1.0);
      var index := ArgMin(scores[..]);
      bestScore := scores[index];
      bestPosition := ViewOf(index);
    }

    /** `update`: every ant in turn moves by its offsets and is clipped, is
        rescored, updates its pheromone, and replaces the record on a strictly
        smaller score. Afterwards every ant is in the box and scored where it
        stands, and the record is no worse than before nor than any ant. */
    method Update(offsets: seq<Point>)
      requires Valid()
      requires ValidOffsets(offsets, numAnts)
      requires Attractive(positions[..], offsets, searchSpace, wave)
      modifies this`bestScore, this`bestPosition, positions, scores, pheromoneMap
      ensures Valid()
      ensures Current() == Walk(old(Current()), offsets, numAnts, alpha, decay, searchSpace, wave)
      ensures bestScore <= old(bestScore)
      ensures bestPosition != old(bestPosition) ==> bestScore < old(bestScore)
    {
      ghost var t0 := Current();
      MoveAll(offsets);
      WalkKeeps(t0, offsets, numAnts, alpha, decay, searchSpace, wave);
      assert RecordNoWorse(Current(), t0) && OwnScored(Current(), wave);
      forall i | 0 <= i < numAnts
        ensures InBox(positions[i], searchSpace) && scores[i] == Obj(wave, positions[i]) && bestScore <= scores[i]
      {
        assert Landed(Current(), i, t0.positions[i], offsets[i], t0.pheromone[i], alpha, decay, searchSpace, wave);
      }
    }

    /** The loop of `update` over the ants, in index order. */
    method MoveAll(offsets: seq<Point>)
      requires numAnts >= 1 && searchSpace.lo <= searchSpace.hi
      requires positions.Length == numAnts && scores.Length == numAnts && pheromoneMap.Length == numAnts
      requires scores != pheromoneMap
      requires ValidOffsets(offsets, numAnts)
      requires Attractive(positions[..], offsets, searchSpace, wave)
      modifies this`bestScore, this`bestPosition, positions, scores, pheromoneMap
      ensures Current() == Walk(old(Current()), offsets, numAnts, alpha, decay, searchSpace, wave)
    {
      ghost var t0 := Current();
      var i := 0;
      while i < numAnts
        invariant 0 <= i <= numAnts
        invariant Current() == Walk(t0, offsets, i, alpha, decay, searchSpace, wave)
      {
        assert positions[i] == t0.positions[i];
        MoveAnt(i, offsets[i]);
        assert Current() == WalkThrough(t0, offsets, i + 1, alpha, decay, searchSpace, wave);
        i := i + 1;
      }
    }

    /** The body of `update`'s loop for ant `i`. */
    method MoveAnt(i: nat, offset: Point)
      requires numAnts >= 1 && searchSpace.lo <= searchSpace.hi
      requires positions.Length == numAnts && scores.Length == numAnts && pheromoneMap.Length == numAnts
      requires scores != pheromoneMap && i < numAnts
      requires -10.0 <= offset.x < 10.0 && -10.0 <= offset.y < 10.0
      requires 1.0 + Obj(wave, Move(positions[i], offset, searchSpace)) != 0.0
      modifies this`bestScore, this`bestPosition, positions, scores, pheromoneMap
      ensures Current() == AntStep(old(Current()), i, offset, alpha, decay, searchSpace, wave)
    {
      var newPos := Move(positions[i], offset, searchSpace);
      var newScore := Obj(wave, newPos);
      scores[i] := newScore;
      positions[i] := newPos;
      pheromoneMap[i] := Deposit(pheromoneMap[i], newScore, alpha, decay);
      if newScore < bestScore {
        bestScore := newScore;
        bestPosition := Own(newPos);
      }
    }

    /** `get_positions`: the two coordinate columns and the stored scores; nothing changes. */
    method GetPositions() returns (xs: seq<real>, ys: seq<real>, zs: seq<real>)
      requires Valid()
      ensures |xs| == numAnts && |ys| == numAnts && |zs| == numAnts
      ensures forall i :: 0 <= i < numAnts ==>
        xs[i] == positions[i].x && ys[i] == positions[i].y && zs[i] == scores[i] &&
        zs[i] == Schwefel(wave, xs[i], ys[i])
    {
      xs := seq(positions.Length, i requires 0 <= i < positions.Length reads this, positions => positions[i].x);
      ys := seq(positions.Length, i requires 0 <= i < positions.Length reads this, positions => positions[i].y);
      zs := scores[..];
    }
  }
}
