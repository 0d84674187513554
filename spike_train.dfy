/** The training script `examples/spikeai/train.py`: the stateful
    `halt_function` that stops evolution, and the `TrainingWorld` whose
    `update_world` moves the surviving bots one after the other. The
    movement's trigonometry and rounding are the parameter `step`:
    `step(angle, speed)` is the rounded displacement `(dx, dy)`. */
module SpikeTrain {
  import opened Common

  const PopulationSize: nat := 500
  const MaxGenerations: int := 1000
  const FitnessPlateauDuration: int := 100
  const MaxGameTicks: int := 10000

  // ---------------------------------------------------------------------
  // Halting

  /** The two module globals `halt_function` reads and writes. */
  datatype HaltState = HaltState(currentMaxFitness: int, fitnessLastUpdated: int)

  /** One call `halt_function(population, generation_count)` where
      `best` is `population[0]["fitness"]`: whether to halt, and the globals
      afterwards. */
  function HaltStep(s: HaltState, best: int, count: int): (r: (bool, HaltState))
    // Past the generation limit: halt, globals untouched.
    ensures count > MaxGenerations ==> r.0 && r.1 == s
    // The best fitness seen so far never goes down, and is the larger one.
    ensures count <= MaxGenerations ==>
              r.1.currentMaxFitness == (if best > s.currentMaxFitness then best else s.currentMaxFitness)
    // An improvement resets the plateau counter; anything else counts one more stale generation.
    ensures count <= MaxGenerations ==>
              r.1.fitnessLastUpdated == (if best > s.currentMaxFitness then 0 else s.fitnessLastUpdated + 1)
    // Below the limit: halt exactly on an improvement to the top score, or,
    // without an improvement, once the plateau counter passes the duration.
    ensures count <= MaxGenerations ==>
              (r.0 <==> (best > s.currentMaxFitness && best == MaxGameTicks) ||
                        (best <= s.currentMaxFitness && s.fitnessLastUpdated + 1 > FitnessPlateauDuration))
    // Halting below the limit happens only at the top score or after a long plateau.
    ensures count <= MaxGenerations && r.0 ==>
              r.1.currentMaxFitness == MaxGameTicks || r.1.fitnessLastUpdated > FitnessPlateauDuration
    // A run that goes on has a plateau counter within the allowed duration.
    ensures !r.0 ==> r.1.fitnessLastUpdated <= FitnessPlateauDuration
  {
    if count > MaxGenerations then (true, s)
    else if best > s.currentMaxFitness then
      (best == MaxGameTicks, HaltState(best, 0))
    else
      var stale := s.fitnessLastUpdated + 1;
      (stale > FitnessPlateauDuration, HaltState(s.currentMaxFitness, stale))
  }

  /** The globals after a series of calls, each with its best fitness and
      generation count. */
  function HaltRun(s: HaltState, calls: seq<(int, int)>): (r: HaltState)
    decreases |calls|
  {
    if calls == [] then s
    else HaltRun(HaltStep(s, calls[0].0, calls[0].1).1, calls[1..])
  }

  /** `current_max_fitness` never decreases over any series of calls. */
  lemma {:induction false} HaltRunMonotone(s: HaltState, calls: seq<(int, int)>)
    ensures HaltRun(s, calls).currentMaxFitness >= s.currentMaxFitness
    decreases |calls|
  {
    if calls != [] {
      HaltRunMonotone(HaltStep(s, calls[0].0, calls[0].1).1, calls[1..]);
    }
  }

  /** The first `n` calls of a series returned False. */
  predicate GoesOn(s: HaltState, calls: seq<(int, int)>, n: nat)
    requires n <= |calls|
    decreases n
  {
    n == 0 || (!HaltStep(s, calls[0].0, calls[0].1).0 && GoesOn(HaltStep(s, calls[0].0, calls[0].1).1, calls[1..], n - 1))
  }

  /** Without an improvement, training cannot go on for more than
      `fitness_plateau_duration` generations in a row: from a counter at 0,
      a series of 101 calls with no better fitness halts at one of them. */
  lemma {:induction false} PlateauHalts(s: HaltState, calls: seq<(int, int)>)
    requires 0 <= s.fitnessLastUpdated <= FitnessPlateauDuration
    requires |calls| == FitnessPlateauDuration - s.fitnessLastUpdated + 1
    requires forall k :: 0 <= k < |calls| ==> calls[k].0 <= s.currentMaxFitness
    ensures !GoesOn(s, calls, |calls|)
    decreases |calls|
  {
    var (h, t) := HaltStep(s, calls[0].0, calls[0].1);
    if !h {
      assert t.currentMaxFitness == s.currentMaxFitness;
      assert t.fitnessLastUpdated == s.fitnessLastUpdated + 1;
      PlateauHalts(t, calls[1..]);
    }
  }

  /** The module of globals, as one object whose `Halt` is `halt_function`. */
  class TrainingSession {
    var currentMaxFitness: int
    var fitnessLastUpdated: int

    constructor ()
      ensures currentMaxFitness == 0 && fitnessLastUpdated == 0
    {
      currentMaxFitness := 0;
      fitnessLastUpdated := 0;
    }

    method Halt(best: int, generationCount: int) returns (halt: bool)
      modifies this
      ensures (halt, HaltState(currentMaxFitness, fitnessLastUpdated)) ==
              HaltStep(HaltState(old(currentMaxFitness), old(fitnessLastUpdated)), best, generationCount)
    {
      if generationCount > MaxGenerations {
        return true;
      }
      if best > currentMaxFitness {
        currentMaxFitness := best;
        fitnessLastUpdated := 0;
        if currentMaxFitness == MaxGameTicks {
          return true;
        }
        return false;
      } else {
        fitnessLastUpdated := fitnessLastUpdated + 1;
        if fitnessLastUpdated > FitnessPlateauDuration {
          return true;
        } else {
          return false;
        }
      }
    }
  }

  // ---------------------------------------------------------------------
  // The training world

  /** What `update_world` reads and writes of a `SANNBot`. */
  datatype TBot = TBot(x: int, y: int, angle: real, leftMotor: real, rightMotor: real,
                       lifespan: int, collided: bool)

  /** `[bot for bot in bots if not bot.collided]`. */
  function Survivors(bots: seq<TBot>): (r: seq<TBot>)
    ensures |r| <= |bots|
    ensures forall k :: 0 <= k < |r| ==> !r[k].collided
    ensures forall b :: b in r <==> b in bots && !b.collided
  {
    if bots == [] then []
    else if bots[0].collided then Survivors(bots[1..])
    else [bots[0]] + Survivors(bots[1..])
  }

  /** Another bot than the `i`-th stands at `c`. */
  predicate Occupied(bots: seq<TBot>, i: nat, c: Cell)
  {
    exists k :: 0 <= k < |bots| && k != i && (bots[k].x, bots[k].y) == c
  }

  /** The loop body of `update_world` for bot `b`, the `i`-th of `bots`. The
      move is refused only when the target is an obstacle or off the world
      AND another bot stands there: the two tests are joined by `or`. */
  function Moved(b: TBot, bots: seq<TBot>, i: nat, width: int, height: int, obstacles: map<Cell, string>,
                 step: (real, real) -> (int, int)): TBot
  {
    var rotation := (b.rightMotor - b.leftMotor) * 10.0;
    var forward := (b.leftMotor + b.rightMotor) / 2.0;
    var aged := b.(lifespan := b.lifespan + 1);
    var placed :=
      if forward != 0.0 then
        var d := step(b.angle, forward);
        var target := (b.x + d.0, b.y + d.1);
        if (target !in obstacles && 0 <= target.0 < width && 0 <= target.1 < height) || !Occupied(bots, i, target)
        then aged.(x := target.0, y := target.1)
        else aged.(collided := true)
      else aged;
    placed.(angle := Mod360(b.angle + rotation))
  }

  /** The bots after the loop has handled the first `k` of them; each one
      sees the others where the earlier iterations left them. */
  function Processed(bots: seq<TBot>, k: nat, width: int, height: int, obstacles: map<Cell, string>,
                     step: (real, real) -> (int, int)): (r: seq<TBot>)
    requires k <= |bots|
    ensures |r| == |bots|
  {
    if k == 0 then bots
    else
      var p := Processed(bots, k - 1, width, height, obstacles, step);
      p[k - 1 := Moved(p[k - 1], p, k - 1, width, height, obstacles, step)]
  }

  /** A bot not yet reached is as it was. */
  lemma {:induction false} ProcessedAhead(bots: seq<TBot>, k: nat, j: nat, width: int, height: int,
                                          obstacles: map<Cell, string>, step: (real, real) -> (int, int))
    requires k <= j < |bots|
    ensures Processed(bots, k, width, height, obstacles, step)[j] == bots[j]
  {
    if k > 0 {
      ProcessedAhead(bots, k - 1, j, width, height, obstacles, step);
    }
  }

  /** A bot already handled is not touched again. */
  lemma {:induction false} ProcessedBehind(bots: seq<TBot>, k: nat, j: nat, width: int, height: int,
                                           obstacles: map<Cell, string>, step: (real, real) -> (int, int))
    requires j < k <= |bots|
    ensures Processed(bots, k, width, height, obstacles, step)[j] ==
            Processed(bots, j + 1, width, height, obstacles, step)[j]
  {
    if k > j + 1 {
      ProcessedBehind(bots, k - 1, j, width, height, obstacles, step);
    }
  }

  /** What one pass does to the `j`-th bot, given the positions the bots
      had when its turn came. */
  lemma UpdateOfBot(bots: seq<TBot>, j: nat, width: int, height: int, obstacles: map<Cell, string>,
                    step: (real, real) -> (int, int))
    requires j < |bots|
    ensures
      var before := Processed(bots, j, width, height, obstacles, step);
      var b := bots[j];
      var r := Processed(bots, |bots|, width, height, obstacles, step)[j];
      var forward := (b.leftMotor + b.rightMotor) / 2.0;
      var d := step(b.angle, forward);
      var target := (b.x + d.0, b.y + d.1);
      var refused := (target in obstacles || !InBounds(target, width, height)) && Occupied(before, j, target);
      && r.lifespan == b.lifespan + 1
      && r.angle == Mod360(b.angle + (b.rightMotor - b.leftMotor) * 10.0)
      && r.leftMotor == b.leftMotor && r.rightMotor == b.rightMotor
      && (forward == 0.0 ==> r.x == b.x && r.y == b.y && r.collided == b.collided)
      && (forward != 0.0 && !refused ==> (r.x, r.y) == target && r.collided == b.collided)
      && (forward != 0.0 && refused ==> r.x == b.x && r.y == b.y && r.collided)
  {
    ProcessedBehind(bots, |bots|, j, width, height, obstacles, step);
    ProcessedAhead(bots, j, j, width, height, obstacles, step);
  }

  /** The quirk of the `or`: with no other bot in the way, a bot drives
      straight off the world instead of colliding with its edge. */
  lemma LeavesTheWorld()
    ensures
      var b := TBot(0, 0, 0.0, 1.0, 1.0, 0, false);
      var step := (angle: real, speed: real) => (0, -2);
      var r := Processed([b], 1, 40, 40, map[], step)[0];
      r.y == -2 && !InBounds((r.x, r.y), 40, 40) && !r.collided
  {
    var b := TBot(0, 0, 0.0, 1.0, 1.0, 0, false);
    var step := (angle: real, speed: real) => (0, -2);
    assert !Occupied([b], 0, (0, -2));
  }

  /** The quirk of the `or` for every bot: a move whose target is off the
      world, with no other bot standing there, is taken, and the bot ends
      up outside the world without colliding. */
  lemma LeavesTheWorldAlways(bots: seq<TBot>, j: nat, width: int, height: int, obstacles: map<Cell, string>,
                             step: (real, real) -> (int, int))
    requires j < |bots|
    requires var b := bots[j];
             var forward := (b.leftMotor + b.rightMotor) / 2.0;
             var d := step(b.angle, forward);
             var target := (b.x + d.0, b.y + d.1);
             && forward != 0.0 && !InBounds(target, width, height)
             && !Occupied(Processed(bots, j, width, height, obstacles, step), j, target)
    ensures var b := bots[j];
            var d := step(b.angle, (b.leftMotor + b.rightMotor) / 2.0);
            var r := Processed(bots, |bots|, width, height, obstacles, step)[j];
            (r.x, r.y) == (b.x + d.0, b.y + d.1) && !InBounds((r.x, r.y), width, height)
            && r.collided == b.collided
  {
    UpdateOfBot(bots, j, width, height, obstacles, step);
  }

  class TrainingWorld {
    const width: int
    const height: int
    var obstacles: map<Cell, string>
    var bots: seq<TBot>

    constructor (width: int, height: int)
      ensures this.width == width && this.height == height
      ensures obstacles == map[] && bots == []
    {
      this.width := width;
      this.height := height;
      obstacles := map[];
      bots := [];
    }

    /** `add_bot(bot, x, y, angle)`: places the bot with its angle reduced
        modulo 360 and appends it. */
    method AddBot(bot: TBot, x: int, y: int, angle: real)
      modifies this
      ensures bots == old(bots) + [bot.(x := x, y := y, angle := Mod360(angle))]
      ensures obstacles == old(obstacles)
    {
      bots := bots + [bot.(x := x, y := y, angle := Mod360(angle))];
    }

    /** `update_world()`: drops the collided bots, then moves each survivor
        in list order. */
    method UpdateWorld(step: (real, real) -> (int, int))
      modifies this
      ensures bots == Processed(Survivors(old(bots)), |Survivors(old(bots))|, width, height, obstacles, step)
      ensures obstacles == old(obstacles)
    {
      bots := Survivors(bots);
      ghost var start := bots;
      var i := 0;
      while i < |bots|
        invariant |bots| == |start| && 0 <= i <= |bots|
        invariant obstacles == old(obstacles)
        invariant bots == Processed(start, i, width, height, obstacles, step)
      {
        MoveBot(i, step);
        i := i + 1;
      }
    }

    /** One iteration of the loop of `update_world`, for the `i`-th bot. */
    method MoveBot(i: nat, step: (real, real) -> (int, int))
      requires i < |bots|
      modifies this
      ensures bots == old(bots)[i := Moved(old(bots)[i], old(bots), i, width, height, obstacles, step)]
      ensures obstacles == old(obstacles)
    {
      var bot := bots[i];
      bot := bot.(lifespan := bot.lifespan + 1);
      var rotationSpeed := (bot.rightMotor - bot.leftMotor) * 10.0;
      var forwardSpeed := (bot.leftMotor + bot.rightMotor) / 2.0;
      if forwardSpeed != 0.0 {
        var d := step(bot.angle, forwardSpeed);
        var nx, ny := bot.x + d.0, bot.y + d.1;
        if ((nx, ny) !in obstacles && 0 <= nx < width && 0 <= ny < height) || !Occupied(bots, i, (nx, ny)) {
          bot := bot.(x := nx, y := ny);
        } else {
          bot := bot.(collided := true);
        }
      }
      bot := bot.(angle := Mod360(bot.angle + rotationSpeed));
      bots := bots[i := bot];
    }
  }
}
