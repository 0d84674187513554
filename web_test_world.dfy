/** The text-mode test world of the browser example,
    `examples/spikeai/web/test_main.py`: a list of placed bots, obstacles,
    a colour and a distance sensor, the behaviour rule that turns readings
    into motor values, the move-or-turn rule of `tick`, and the fading
    trails. A bot object is represented by its `Body`, whose `id` stands
    for Python's object identity. The trigonometry and rounding are
    parameters:
      - `ahead(angle)` is the one-cell step `(round(sin a), -round(cos a))`;
      - `ray(x, y, angle, dist)` is the cell `dist` steps along the heading;
      - `step(angle, speed)` is the rounded displacement of a move. */
module WebTestWorld {
  import opened Common
  import S = SpikeBot

  /** `trail_max_length`. */
  const TrailMaxLength: int := 8

  /** The state of a `TestBot`: its identity, whether it leaves a trail,
      its motors and its last readings. */
  datatype Body = Body(id: nat, leaveTrail: bool, leftMotor: real, rightMotor: real,
                       colourReading: int, distanceReading: int)

  /** One dictionary `{"bot": bot, "x": x, "y": y, "angle": angle}` of `self.bots`. */
  datatype Placed = Placed(bot: Body, x: int, y: int, angle: real)

  /** A trail entry `(x, y, angle, age)`. */
  type Trace = (int, int, real, int)

  type Trail = seq<Trace>

  // ---------------------------------------------------------------------
  // The behaviour rule and the trail marker

  /** The motors `tick` sets from the readings. */
  function Behaviour(colour: int, distance: int): (motors: (real, real))
  {
    if colour == 1 then (0.0, 0.0)
    else if colour == 2 then (1.0, 1.0)
    else if colour == 3 then (-0.5, 1.0)
    else if colour == 4 then (1.0, -0.5)
    else if 0 < distance <= 2 then (-1.0, 1.0)
    else (1.0, 1.0)
  }

  /** Colour takes priority over distance; red stops the bot, green drives
      it straight on, blue turns it left and yellow right while it moves;
      without a colour a near obstacle (1 or 2) makes it spin on the spot,
      and anything else drives it straight on. */
  lemma BehaviourMeaning(colour: int, distance: int)
    ensures 1 <= colour <= 4 ==> forall other :: Behaviour(colour, other) == Behaviour(colour, distance)
    ensures var (l, r) := Behaviour(colour, distance);
            && (colour == 1 ==> l + r == 0.0 && r - l == 0.0)
            && (colour == 2 ==> l + r > 0.0 && r - l == 0.0)
            && (colour == 3 ==> l + r > 0.0 && r - l > 0.0)
            && (colour == 4 ==> l + r > 0.0 && r - l < 0.0)
            && (!(1 <= colour <= 4) && 0 < distance <= 2 ==> l + r == 0.0 && r - l > 0.0)
            && (!(1 <= colour <= 4) && !(0 < distance <= 2) ==> (l, r) == (1.0, 1.0))
  {
  }

  /** The eight arrows, clockwise from north. */
  const Arrows: seq<string> :=
    ["\U{2191}", "\U{2197}", "\U{2192}", "\U{2198}", "\U{2193}", "\U{2199}", "\U{2190}", "\U{2196}"]

  /** `get_trail_marker(angle)`. */
  function Marker(angle: real): (m: string)
  {
    var a := Mod360(angle);
    if 337.5 <= a || a < 22.5 then Arrows[0]
    else if 22.5 <= a < 67.5 then Arrows[1]
    else if 67.5 <= a < 112.5 then Arrows[2]
    else if 112.5 <= a < 157.5 then Arrows[3]
    else if 157.5 <= a < 202.5 then Arrows[4]
    else if 202.5 <= a < 247.5 then Arrows[5]
    else if 247.5 <= a < 292.5 then Arrows[6]
    else if 292.5 <= a < 337.5 then Arrows[7]
    else "\U{2022}"
  }

  /** The marker is the arrow of the 45-degree sector centred on a multiple
      of 45 that holds the angle; the fallback dot never appears. */
  lemma MarkerSector(angle: real)
    ensures Marker(angle) == Arrows[((Mod360(angle) + 22.5) / 45.0).Floor % 8]
    ensures Marker(angle) != "\U{2022}"
  {
    var a := Mod360(angle);
    var q := ((a + 22.5) / 45.0).Floor;
    if 337.5 <= a {
      assert q == 8;
    } else if a < 22.5 {
      assert q == 0;
    } else if a < 67.5 {
      assert q == 1;
    } else if a < 112.5 {
      assert q == 2;
    } else if a < 157.5 {
      assert q == 3;
    } else if a < 202.5 {
      assert q == 4;
    } else if a < 247.5 {
      assert q == 5;
    } else if a < 292.5 {
      assert q == 6;
    } else {
      assert q == 7;
    }
  }

  // ---------------------------------------------------------------------
  // Trails

  /** Appending the newest entry, then `pop(0)` when the trail grew past
      its maximum. */
  function Pushed(trail: Trail, t: Trace): (r: Trail)
    // The newest entry is the last one, and each kept entry is one of the newest.
    ensures |r| == if |trail| + 1 > TrailMaxLength then |trail| else |trail| + 1
    ensures r != [] && r[|r| - 1] == t
    ensures r == (trail + [t])[|trail| + 1 - |r|..]
    // A trail within the maximum stays within it.
    ensures |trail| <= TrailMaxLength ==> |r| <= TrailMaxLength
  {
    var appended := trail + [t];
    if |appended| > TrailMaxLength then appended[1..] else appended
  }

  /** Every entry one tick older. */
  function Bumped(trail: Trail): (r: Trail)
    ensures |r| == |trail|
    ensures forall k :: 0 <= k < |trail| ==> r[k] == (trail[k].0, trail[k].1, trail[k].2, trail[k].3 + 1)
  {
    seq(|trail|, k requires 0 <= k < |trail| => (trail[k].0, trail[k].1, trail[k].2, trail[k].3 + 1))
  }

  /** The list comprehension that drops the fully faded entries. */
  function Young(trail: Trail): (r: Trail)
    ensures |r| <= |trail|
    ensures forall k :: 0 <= k < |r| ==> r[k].3 <= TrailMaxLength
  {
    if trail == [] then []
    else if trail[0].3 <= TrailMaxLength then [trail[0]] + Young(trail[1..])
    else Young(trail[1..])
  }

  /** The survivors are exactly the young entries... */
  lemma {:induction false} YoungMembers(trail: Trail, t: Trace)
    ensures t in Young(trail) <==> t in trail && t.3 <= TrailMaxLength
  {
    if trail != [] {
      YoungMembers(trail[1..], t);
      assert trail == [trail[0]] + trail[1..];
    }
  }

  /** ... in their original order: dropping commutes with concatenation. */
  lemma {:induction false} YoungConcat(a: Trail, b: Trail)
    ensures Young(a + b) == Young(a) + Young(b)
  {
    if a == [] {
      assert a + b == b;
    } else {
      assert (a + b)[0] == a[0];
      assert (a + b)[1..] == a[1..] + b;
      YoungConcat(a[1..], b);
      if a[0].3 <= TrailMaxLength {
        assert [a[0]] + (Young(a[1..]) + Young(b)) == [a[0]] + Young(a[1..]) + Young(b);
      }
    }
  }

  /** A tick of ageing: every age grows by one, then the faded entries go. */
  function Aged(trail: Trail): (r: Trail)
    ensures |r| <= |trail|
  {
    Young(Bumped(trail))
  }

  /** Every trail holds at most `trail_max_length` entries, with ages from
      `lo` up to `trail_max_length`. */
  ghost predicate Bounded(trails: map<nat, Trail>, lo: int)
  {
    forall id :: id in trails ==> TrailOk(trails[id], lo)
  }

  ghost predicate TrailOk(trail: Trail, lo: int)
  {
    |trail| <= TrailMaxLength && forall k :: 0 <= k < |trail| ==> lo <= trail[k].3 <= TrailMaxLength
  }

  /** Recording a fresh entry keeps a trail bounded. */
  lemma PushedOk(trail: Trail, t: Trace)
    requires TrailOk(trail, 0) && t.3 == 0
    ensures TrailOk(Pushed(trail, t), 0)
  {
    var r := Pushed(trail, t);
    var a := trail + [t];
    forall j | 0 <= j < |r|
      ensures 0 <= r[j].3 <= TrailMaxLength
    {
      var i := |trail| + 1 - |r| + j;
      assert r[j] == a[i];
      if i < |trail| {
        assert a[i] == trail[i];
      } else {
        assert a[i] == t;
      }
    }
  }

  /** Ageing a trail whose ages are at least 0 leaves ages from 1 to the
      maximum. */
  lemma AgedBounded(trail: Trail)
    requires TrailOk(trail, 0)
    ensures TrailOk(Aged(trail), 1)
  {
    var b := Bumped(trail);
    forall k | 0 <= k < |Aged(trail)|
      ensures 1 <= Aged(trail)[k].3
    {
      YoungMembers(b, Aged(trail)[k]);
    }
  }

  // ---------------------------------------------------------------------
  // The sensors

  /** The first entry of bot `id` at or after `from`, as the loops
      `for b in self.bots: if b["bot"] is bot` find it. */
  function FindFrom(bots: seq<Placed>, id: nat, from: nat): (r: Option<nat>)
    requires from <= |bots|
    ensures r.Some? ==> from <= r.value < |bots| && bots[r.value].bot.id == id
    ensures r.Some? ==> forall k :: from <= k < r.value ==> bots[k].bot.id != id
    ensures r.None? ==> forall k :: from <= k < |bots| ==> bots[k].bot.id != id
    decreases |bots| - from
  {
    if from == |bots| then None
    else if bots[from].bot.id == id then Some(from)
    else FindFrom(bots, id, from + 1)
  }

  /** `get_colour_ahead(bot)`: the colour code of the obstacle one cell
      ahead of the bot's first entry; 0 for no obstacle, a wall, or a bot
      that is not in the world. */
  function ColourSeen(bots: seq<Placed>, obstacles: map<Cell, string>, id: nat, ahead: real -> (int, int)): (code: int)
    ensures 0 <= code <= 4
    ensures FindFrom(bots, id, 0).None? ==> code == 0
    ensures code != 0 ==>
              var b := bots[FindFrom(bots, id, 0).value];
              var c := (b.x + ahead(b.angle).0, b.y + ahead(b.angle).1);
              c in obstacles && code == S.ColourCode(obstacles[c])
    // For a bot in the world, an obstacle in the next cell is read as its
    // colour code, and an empty next cell reads 0.
    ensures FindFrom(bots, id, 0).Some? ==>
              var b := bots[FindFrom(bots, id, 0).value];
              var c := (b.x + ahead(b.angle).0, b.y + ahead(b.angle).1);
              (c in obstacles ==> code == S.ColourCode(obstacles[c])) && (c !in obstacles ==> code == 0)
  {
    match FindFrom(bots, id, 0)
    case None => 0
    case Some(k) =>
      var b := bots[k];
      var d := ahead(b.angle);
      var c := (b.x + d.0, b.y + d.1);
      if c in obstacles then S.ColourCode(obstacles[c]) else 0
  }

  /** The cells of the entries of every bot other than `id`. */
  function Others(bots: seq<Placed>, id: nat): (r: seq<Cell>)
    ensures |r| <= |bots|
  {
    if bots == [] then []
    else if bots[0].bot.id != id then [(bots[0].x, bots[0].y)] + Others(bots[1..], id)
    else Others(bots[1..], id)
  }

  /** `any(other["x"] == x and other["y"] == y and other["bot"] != bot ...)`:
      a cell is among `Others` exactly when an entry of another bot stands
      there. The bot's own entries never count. */
  lemma {:induction false} OthersMeaning(bots: seq<Placed>, id: nat, c: Cell)
    ensures c in Others(bots, id) <==>
            exists k :: 0 <= k < |bots| && bots[k].bot.id != id && (bots[k].x, bots[k].y) == c
  {
    if bots != [] {
      OthersMeaning(bots[1..], id, c);
      if exists k :: 0 <= k < |bots| && bots[k].bot.id != id && (bots[k].x, bots[k].y) == c {
        var k :| 0 <= k < |bots| && bots[k].bot.id != id && (bots[k].x, bots[k].y) == c;
        if k > 0 {
          assert bots[1..][k - 1] == bots[k];
        }
      }
      if c in Others(bots[1..], id) {
        var k :| 0 <= k < |bots[1..]| && bots[1..][k].bot.id != id && (bots[1..][k].x, bots[1..][k].y) == c;
        assert bots[k + 1] == bots[1..][k];
      }
    }
  }

  /** `get_distance_ahead(bot)`: the distance sensor of the robot world,
      along the heading of the bot's first entry, seeing the other bots;
      0 for a bot that is not in the world. */
  function DistanceSeen(width: int, height: int, obstacles: map<Cell, string>, bots: seq<Placed>, id: nat,
                        ray: (int, int, real, nat) -> Cell): (dist: nat)
    ensures dist <= 5
    ensures FindFrom(bots, id, 0).None? ==> dist == 0
    // For a bot in the world: a non-zero reading is the first step along the
    // ray that is off the grid, an obstacle or another bot; 0 means the five
    // steps are all free.
    ensures FindFrom(bots, id, 0).Some? ==>
              var b := bots[FindFrom(bots, id, 0).value];
              && (dist != 0 ==> 1 <= dist && S.Blocked(width, height, obstacles, Others(bots, id), ray(b.x, b.y, b.angle, dist)))
              && (forall e :: 1 <= e <= 5 && (dist == 0 || e < dist) ==>
                    !S.Blocked(width, height, obstacles, Others(bots, id), ray(b.x, b.y, b.angle, e)))
  {
    match FindFrom(bots, id, 0)
    case None => 0
    case Some(k) =>
      var b := bots[k];
      S.DistanceScan(width, height, obstacles, Others(bots, id), (d: nat) => ray(b.x, b.y, b.angle, d), 1)
  }

  // ---------------------------------------------------------------------
  // One tick

  /** What the sensors of the `k`-th entry read, colour code then distance,
      in the arrangement `bots`. */
  type Sensor = (seq<Placed>, nat) -> (int, int)

  /** The world's own sensors: `get_colour_ahead` and `get_distance_ahead`
      of the bot the entry holds. */
  function Readings(width: int, height: int, obstacles: map<Cell, string>,
                    ahead: real -> (int, int), ray: (int, int, real, nat) -> Cell): (sense: Sensor)
    ensures forall bots: seq<Placed>, k: nat | k < |bots| ::
              sense(bots, k) == (ColourSeen(bots, obstacles, bots[k].bot.id, ahead),
                                 DistanceSeen(width, height, obstacles, bots, bots[k].bot.id, ray))
  {
    (bots: seq<Placed>, k: nat) =>
      if k < |bots| then
        (ColourSeen(bots, obstacles, bots[k].bot.id, ahead),
         DistanceSeen(width, height, obstacles, bots, bots[k].bot.id, ray))
      else (0, 0)
  }

  /** `detect_world` and the behaviour rule for the `k`-th entry: the bot
      with its new readings and motors. */
  function Sensed(bots: seq<Placed>, k: nat, sense: Sensor): (body: Body)
    requires k < |bots|
    ensures body.id == bots[k].bot.id && body.leaveTrail == bots[k].bot.leaveTrail
    ensures (body.colourReading, body.distanceReading) == sense(bots, k)
    ensures (body.leftMotor, body.rightMotor) == Behaviour(body.colourReading, body.distanceReading)
  {
    var readings := sense(bots, k);
    var motors := Behaviour(readings.0, readings.1);
    bots[k].bot.(colourReading := readings.0, distanceReading := readings.1,
                 leftMotor := motors.0, rightMotor := motors.1)
  }

  /** The move or turn of entry `b` whose bot is now `body`, with the
      cells of the other bots `others`, and whether it moved. The new angle
      is the old one turned by ten times the motor difference; a move goes
      along the new angle, is replaced by an about-turn (from the old angle)
      at an obstacle or the edge, and is skipped altogether when another bot
      holds the cell. */
  function Placement(b: Placed, body: Body, others: seq<Cell>, width: int, height: int,
                     obstacles: map<Cell, string>, step: (real, real) -> (int, int)): (r: (Placed, bool))
    ensures r.0.bot == body
    ensures r.1 ==> InBounds((r.0.x, r.0.y), width, height) && (r.0.x, r.0.y) !in obstacles
    ensures r.1 ==> (r.0.x, r.0.y) !in others
    ensures !r.1 ==> r.0.x == b.x && r.0.y == b.y
  {
    var newAngle := Mod360(b.angle + (body.rightMotor - body.leftMotor) * 10.0);
    var forward := (body.leftMotor + body.rightMotor) / 2.0;
    if forward == 0.0 then (b.(bot := body, angle := newAngle), false)
    else
      var d := step(newAngle, forward);
      var target := (b.x + d.0, b.y + d.1);
      if target in obstacles || !InBounds(target, width, height) then
        (b.(bot := body, angle := Mod360(b.angle + 180.0)), false)
      else if target in others then (b.(bot := body), false)
      else (Placed(body, target.0, target.1, newAngle), true)
  }

  /** The move-or-turn rule case by case. The new angle is the old one
      turned by ten times the motor difference, taken mod 360. With no
      forward speed only the angle changes. A target off the grid or on an
      obstacle keeps the position and turns the bot about from its old angle.
      A target another bot holds changes nothing but the bot. A free
      target is taken, with the new angle. */
  lemma PlacementMeaning(b: Placed, body: Body, others: seq<Cell>, width: int, height: int,
                         obstacles: map<Cell, string>, step: (real, real) -> (int, int))
    ensures var r := Placement(b, body, others, width, height, obstacles, step);
            var newAngle := Mod360(b.angle + (body.rightMotor - body.leftMotor) * 10.0);
            var forward := (body.leftMotor + body.rightMotor) / 2.0;
            var d := step(newAngle, forward);
            var target := (b.x + d.0, b.y + d.1);
            var free := InBounds(target, width, height) && target !in obstacles;
            && r.0.bot == body
            && (r.1 <==> forward != 0.0 && free && target !in others)
            && (forward == 0.0 ==> (r.0.x, r.0.y, r.0.angle) == (b.x, b.y, newAngle))
            && (forward != 0.0 && !free ==> (r.0.x, r.0.y, r.0.angle) == (b.x, b.y, Mod360(b.angle + 180.0)))
            && (forward != 0.0 && free && target in others ==> (r.0.x, r.0.y, r.0.angle) == (b.x, b.y, b.angle))
            && (r.1 ==> (r.0.x, r.0.y, r.0.angle) == (target.0, target.1, newAngle))
  {
  }

  /** The main loop's body for the `k`-th entry. A bot that moves and
      leaves a trail records where it was. */
  function TickStep(bots: seq<Placed>, trails: map<nat, Trail>, k: nat, width: int, height: int,
                    obstacles: map<Cell, string>, sense: Sensor, step: (real, real) -> (int, int)): (r: (seq<Placed>, map<nat, Trail>))
    requires k < |bots| && bots[k].bot.id in trails
    ensures |r.0| == |bots| && r.1.Keys == trails.Keys
    ensures forall j :: 0 <= j < |bots| && j != k ==> r.0[j] == bots[j]
    ensures r.0[k].bot.id == bots[k].bot.id && r.0[k].bot.leaveTrail == bots[k].bot.leaveTrail
    ensures forall id :: id in trails && id != bots[k].bot.id ==> r.1[id] == trails[id]
  {
    var b := bots[k];
    var body := Sensed(bots, k, sense);
    var (entry, moved) := Placement(b, body, Others(bots, b.bot.id), width, height, obstacles, step);
    var newTrails :=
      if moved && body.leaveTrail then trails[b.bot.id := Pushed(trails[b.bot.id], (b.x, b.y, b.angle, 0))]
      else trails;
    (bots[k := entry], newTrails)
  }

  /** Every entry's bot has a trail. */
  predicate Tracked(bots: seq<Placed>, trails: map<nat, Trail>)
  {
    forall j :: 0 <= j < |bots| ==> bots[j].bot.id in trails
  }

  /** The entries and trails after the main loop has handled `k` entries. */
  function Moves(bots: seq<Placed>, trails: map<nat, Trail>, k: nat, width: int, height: int,
                 obstacles: map<Cell, string>, sense: Sensor, step: (real, real) -> (int, int)): (r: (seq<Placed>, map<nat, Trail>))
    requires k <= |bots| && Tracked(bots, trails)
    ensures |r.0| == |bots| && r.1.Keys == trails.Keys && Tracked(r.0, r.1)
  {
    if k == 0 then (bots, trails)
    else
      var p := Moves(bots, trails, k - 1, width, height, obstacles, sense, step);
      TickStep(p.0, p.1, k - 1, width, height, obstacles, sense, step)
  }

  lemma MovesStep(bots: seq<Placed>, trails: map<nat, Trail>, k: nat, width: int, height: int,
                  obstacles: map<Cell, string>, sense: Sensor, step: (real, real) -> (int, int))
    requires k < |bots| && Tracked(bots, trails)
    ensures var p := Moves(bots, trails, k, width, height, obstacles, sense, step);
            Moves(bots, trails, k + 1, width, height, obstacles, sense, step) ==
            TickStep(p.0, p.1, k, width, height, obstacles, sense, step)
  {
  }

  /** The first loop of `tick`: an empty trail for every bot that has none. */
  function Started(trails: map<nat, Trail>, bots: seq<Placed>): (r: map<nat, Trail>)
    ensures Tracked(bots, r)
    ensures forall id :: id in trails ==> id in r && r[id] == trails[id]
    ensures forall id :: id in r && id !in trails ==> r[id] == []
    ensures forall id :: id in r ==> id in trails || exists j :: 0 <= j < |bots| && bots[j].bot.id == id
  {
    if bots == [] then trails
    else
      var before := Started(trails, bots[..|bots| - 1]);
      var id := bots[|bots| - 1].bot.id;
      if id in before then before else before[id := []]
  }

  /** The ageing loop of `tick`, over every trail. */
  function AgedAll(trails: map<nat, Trail>): (r: map<nat, Trail>)
    ensures r.Keys == trails.Keys
  {
    map id | id in trails :: Aged(trails[id])
  }

  /** One tick keeps every trail bounded: at most `trail_max_length`
      entries, each aged between 1 and `trail_max_length`. */
  lemma {:induction false} MovesBounded(bots: seq<Placed>, trails: map<nat, Trail>, k: nat, width: int, height: int,
                                        obstacles: map<Cell, string>, sense: Sensor, step: (real, real) -> (int, int))
    requires k <= |bots| && Tracked(bots, trails) && Bounded(trails, 0)
    ensures Bounded(Moves(bots, trails, k, width, height, obstacles, sense, step).1, 0)
  {
    if k > 0 {
      MovesBounded(bots, trails, k - 1, width, height, obstacles, sense, step);
      MovesBoundedStep(bots, trails, k - 1, width, height, obstacles, sense, step);
    }
  }

  /** One more iteration of the main loop keeps every trail bounded. */
  lemma MovesBoundedStep(bots: seq<Placed>, trails: map<nat, Trail>, k: nat, width: int, height: int,
                         obstacles: map<Cell, string>, sense: Sensor, step: (real, real) -> (int, int))
    requires k < |bots| && Tracked(bots, trails)
    requires Bounded(Moves(bots, trails, k, width, height, obstacles, sense, step).1, 0)
    ensures Bounded(Moves(bots, trails, k + 1, width, height, obstacles, sense, step).1, 0)
  {
    var p := Moves(bots, trails, k, width, height, obstacles, sense, step);
    TickStepBounded(p.0, p.1, k, width, height, obstacles, sense, step);
    MovesStep(bots, trails, k, width, height, obstacles, sense, step);
  }

  /** One iteration of the main loop keeps every trail bounded. */
  lemma TickStepBounded(bots: seq<Placed>, trails: map<nat, Trail>, k: nat, width: int, height: int,
                        obstacles: map<Cell, string>, sense: Sensor, step: (real, real) -> (int, int))
    requires k < |bots| && bots[k].bot.id in trails && Bounded(trails, 0)
    ensures Bounded(TickStep(bots, trails, k, width, height, obstacles, sense, step).1, 0)
  {
    var b := bots[k];
    PushedOk(trails[b.bot.id], (b.x, b.y, b.angle, 0));
  }

  lemma StartedBounded(trails: map<nat, Trail>, bots: seq<Placed>)
    requires Bounded(trails, 0)
    ensures Bounded(Started(trails, bots), 0)
  {
  }

  lemma AgedAllBounded(trails: map<nat, Trail>)
    requires Bounded(trails, 0)
    ensures Bounded(AgedAll(trails), 1)
  {
    forall id | id in trails
      ensures TrailOk(AgedAll(trails)[id], 1)
    {
      AgedBounded(trails[id]);
    }
  }

  lemma TickBounded(bots: seq<Placed>, trails: map<nat, Trail>, width: int, height: int,
                    obstacles: map<Cell, string>, sense: Sensor, step: (real, real) -> (int, int))
    requires Bounded(trails, 0)
    ensures var started := Started(trails, bots);
            Bounded(AgedAll(Moves(bots, started, |bots|, width, height, obstacles, sense, step).1), 1)
  {
    var started := Started(trails, bots);
    StartedBounded(trails, bots);
    MovesBounded(bots, started, |bots|, width, height, obstacles, sense, step);
    AgedAllBounded(Moves(bots, started, |bots|, width, height, obstacles, sense, step).1);
  }

  /** No bot is placed twice, no two entries share a cell, and every entry
      lies inside the world. */
  ghost predicate Arranged(bots: seq<Placed>, width: int, height: int)
  {
    && (forall i, j :: 0 <= i < j < |bots| ==> bots[i].bot.id != bots[j].bot.id)
    && (forall i, j :: 0 <= i < j < |bots| ==> (bots[i].x, bots[i].y) != (bots[j].x, bots[j].y))
    && (forall j :: 0 <= j < |bots| ==> InBounds((bots[j].x, bots[j].y), width, height))
  }

  /** A move keeps the bots arranged: a bot moves only to a free cell
      inside the world. */
  lemma StepArranged(bots: seq<Placed>, trails: map<nat, Trail>, k: nat, width: int, height: int,
                     obstacles: map<Cell, string>, sense: Sensor, step: (real, real) -> (int, int))
    requires k < |bots| && bots[k].bot.id in trails
    requires Arranged(bots, width, height)
    ensures Arranged(TickStep(bots, trails, k, width, height, obstacles, sense, step).0, width, height)
  {
    var r := TickStep(bots, trails, k, width, height, obstacles, sense, step).0;
    var b := bots[k];
    if (r[k].x, r[k].y) != (b.x, b.y) {
      var c := (r[k].x, r[k].y);
      assert c !in Others(bots, b.bot.id);
      forall j | 0 <= j < |bots| && j != k
        ensures (bots[j].x, bots[j].y) != c
      {
        OthersMeaning(bots, b.bot.id, c);
      }
    }
  }

  /** The whole main loop keeps the bots arranged. */
  lemma {:induction false} MovesArranged(bots: seq<Placed>, trails: map<nat, Trail>, k: nat, width: int, height: int,
                                         obstacles: map<Cell, string>, sense: Sensor, step: (real, real) -> (int, int))
    requires k <= |bots| && Tracked(bots, trails)
    requires Arranged(bots, width, height)
    ensures Arranged(Moves(bots, trails, k, width, height, obstacles, sense, step).0, width, height)
  {
    if k > 0 {
      MovesArranged(bots, trails, k - 1, width, height, obstacles, sense, step);
      var p := Moves(bots, trails, k - 1, width, height, obstacles, sense, step);
      StepArranged(p.0, p.1, k - 1, width, height, obstacles, sense, step);
    }
  }

  // ---------------------------------------------------------------------
  // The world

  class TestWorld {
    const width: int
    const height: int
    var bots: seq<Placed>
    var obstacles: map<Cell, string>
    var trails: map<nat, Trail>

    /** `TestWorld(width, height)`: no bots, obstacles or trails. */
    constructor (width: int, height: int)
      ensures this.width == width && this.height == height
      ensures bots == [] && obstacles == map[] && trails == map[]
    {
      this.width := width;
      this.height := height;
      bots := [];
      obstacles := map[];
      trails := map[];
    }

    /** `add_bot(bot, x, y, angle)`: appends the entry, angle reduced modulo 360. */
    method AddBot(bot: Body, x: int, y: int, angle: real)
      modifies this
      ensures bots == old(bots) + [Placed(bot, x, y, Mod360(angle))]
      ensures obstacles == old(obstacles) && trails == old(trails)
    {
      bots := bots + [Placed(bot, x, y, Mod360(angle))];
    }

    /** `add_obstacle(x, y, kind)`: one of the five kinds replaces what is
        at the cell; any other kind is ignored. */
    method AddObstacle(x: int, y: int, kind: string)
      modifies this
      ensures S.KnownKind(kind) ==> obstacles == old(obstacles)[(x, y) := kind]
      ensures !S.KnownKind(kind) ==> obstacles == old(obstacles)
      ensures bots == old(bots) && trails == old(trails)
    {
      if S.KnownKind(kind) {
        obstacles := obstacles[(x, y) := kind];
      }
    }

    method ColourAhead(id: nat, ahead: real -> (int, int)) returns (code: int)
      ensures code == ColourSeen(bots, obstacles, id, ahead)
    {
      var i := 0;
      while i < |bots|
        invariant 0 <= i <= |bots|
        invariant forall k :: 0 <= k < i ==> bots[k].bot.id != id
      {
        if bots[i].bot.id == id {
          var d := ahead(bots[i].angle);
          var c := (bots[i].x + d.0, bots[i].y + d.1);
          if c in obstacles {
            return S.ColourCode(obstacles[c]);
          }
          return 0;
        }
        i := i + 1;
      }
      return 0;
    }

    method DistanceAhead(id: nat, ray: (int, int, real, nat) -> Cell) returns (dist: nat)
      ensures dist == DistanceSeen(width, height, obstacles, bots, id, ray)
    {
      var i := 0;
      while i < |bots|
        invariant 0 <= i <= |bots|
        invariant forall k :: 0 <= k < i ==> bots[k].bot.id != id
      {
        if bots[i].bot.id == id {
          var b := bots[i];
          var others := Others(bots, id);
          dist := 1;
          while dist < 6
            invariant 1 <= dist <= 6
            invariant forall e :: 1 <= e < dist ==> !S.Blocked(width, height, obstacles, others, ray(b.x, b.y, b.angle, e))
          {
            var c := ray(b.x, b.y, b.angle, dist);
            if !(0 <= c.0 < width && 0 <= c.1 < height) {
              return;
            }
            if c in obstacles {
              return;
            }
            if c in others {
              return;
            }
            dist := dist + 1;
          }
          return 0;
        }
        i := i + 1;
      }
      return 0;
    }

    /** The main loop's body for the `k`-th entry: `detect_world`, the
        behaviour rule, and the move or turn. */
    method TickEntry(k: nat, ahead: real -> (int, int), ray: (int, int, real, nat) -> Cell,
                     step: (real, real) -> (int, int))
      requires k < |bots| && bots[k].bot.id in trails
      modifies this
      ensures (bots, trails) == TickStep(old(bots), old(trails), k, width, height, obstacles, Readings(width, height, obstacles, ahead, ray), step)
      ensures obstacles == old(obstacles)
    {
      var b := bots[k];
      var body := Sense(k, ahead, ray);
      var others := Others(bots, b.bot.id);
      var entry, moved := Place(b, body, others, step);
      if moved && body.leaveTrail {
        trails := trails[b.bot.id := Pushed(trails[b.bot.id], (b.x, b.y, b.angle, 0))];
      }
      bots := bots[k := entry];
    }

    /** `bot.detect_world()` and the behaviour rule. */
    method Sense(k: nat, ahead: real -> (int, int), ray: (int, int, real, nat) -> Cell) returns (body: Body)
      requires k < |bots|
      ensures body == Sensed(bots, k, Readings(width, height, obstacles, ahead, ray))
    {
      var colour := ColourAhead(bots[k].bot.id, ahead);
      var distance := DistanceAhead(bots[k].bot.id, ray);
      body := bots[k].bot.(colourReading := colour, distanceReading := distance);
      var (left, right) := Behaviour(colour, distance);
      body := body.(leftMotor := left, rightMotor := right);
    }

    /** The move-or-turn statements of the main loop. */
    method Place(b: Placed, body: Body, others: seq<Cell>, step: (real, real) -> (int, int))
      returns (entry: Placed, moved: bool)
      ensures (entry, moved) == Placement(b, body, others, width, height, obstacles, step)
    {
      var rotationSpeed := (body.rightMotor - body.leftMotor) * 10.0;
      var newAngle := Mod360(b.angle + rotationSpeed);
      var forwardSpeed := (body.leftMotor + body.rightMotor) / 2.0;
      moved := false;
      if forwardSpeed != 0.0 {
        var d := step(newAngle, forwardSpeed);
        var nx, ny := b.x + d.0, b.y + d.1;
        if (nx, ny) !in obstacles && 0 <= nx < width && 0 <= ny < height {
          if (nx, ny) !in others {
            entry, moved := Placed(body, nx, ny, newAngle), true;
          } else {
            entry := b.(bot := body);
          }
        } else {
          entry := b.(bot := body, angle := Mod360(b.angle + 180.0));
        }
      } else {
        entry := b.(bot := body, angle := newAngle);
      }
    }

    /** The ageing loop of `tick`: each trail's ages are raised one by one,
        then the faded entries dropped. */
    method AgeTrails()
      modifies this
      ensures trails == AgedAll(old(trails))
      ensures bots == old(bots) && obstacles == old(obstacles)
    {
      ghost var start := trails;
      var keys := trails.Keys;
      while keys != {}
        invariant keys <= start.Keys && trails.Keys == start.Keys
        invariant forall id :: id in start && id !in keys ==> trails[id] == Aged(start[id])
        invariant forall id :: id in keys ==> trails[id] == start[id]
        invariant bots == old(bots) && obstacles == old(obstacles)
        decreases |keys|
      {
        var id :| id in keys;
        var t := AgeEach(trails[id]);
        trails := trails[id := Young(t)];
        keys := keys - {id};
      }
    }

    /** The loop that rewrites each entry of a trail one tick older. */
    static method AgeEach(trail: Trail) returns (t: Trail)
      ensures t == Bumped(trail)
    {
      t := trail;
      for i := 0 to |t|
        invariant |t| == |trail|
        invariant forall j :: 0 <= j < i ==> t[j] == Bumped(trail)[j]
        invariant forall j :: i <= j < |t| ==> t[j] == trail[j]
      {
        t := t[i := (t[i].0, t[i].1, t[i].2, t[i].3 + 1)];
      }
    }

    /** The first loop of `tick`. */
    method StartTrails()
      modifies this
      ensures trails == Started(old(trails), old(bots))
      ensures bots == old(bots) && obstacles == old(obstacles)
    {
      for i := 0 to |bots|
        invariant bots == old(bots) && obstacles == old(obstacles)
        invariant trails == Started(old(trails), bots[..i])
      {
        assert bots[..i + 1][..i] == bots[..i];
        if bots[i].bot.id !in trails {
          trails := trails[bots[i].bot.id := []];
        }
      }
      assert bots[..|bots|] == bots;
    }

    /** The main loop of `tick`. */
    method MoveAll(ahead: real -> (int, int), ray: (int, int, real, nat) -> Cell, step: (real, real) -> (int, int))
      requires Tracked(bots, trails)
      modifies this
      ensures obstacles == old(obstacles)
      ensures (bots, trails) == Moves(old(bots), old(trails), |old(bots)|, width, height, obstacles, Readings(width, height, obstacles, ahead, ray), step)
    {
      ghost var start, started := bots, trails;
      ghost var sense := Readings(width, height, obstacles, ahead, ray);
      var k := 0;
      while k < |bots|
        invariant k <= |bots| == |start| && obstacles == old(obstacles) && Tracked(bots, trails)
        invariant (bots, trails) == Moves(start, started, k, width, height, obstacles, sense, step)
      {
        ghost var before := (bots, trails);
        TickEntry(k, ahead, ray, step);
        MovesStep(start, started, k, width, height, obstacles, sense, step);
        assert (bots, trails) == TickStep(before.0, before.1, k, width, height, obstacles, sense, step);
        k := k + 1;
      }
    }

    /** `tick()`: give every bot a trail, handle the entries in order, then
        age the trails. */
    method Tick(ahead: real -> (int, int), ray: (int, int, real, nat) -> Cell, step: (real, real) -> (int, int))
      modifies this
      ensures obstacles == old(obstacles)
      ensures var moved := Moves(old(bots), Started(old(trails), old(bots)), |old(bots)|,
                                 width, height, obstacles, Readings(width, height, obstacles, ahead, ray), step);
              bots == moved.0 && trails == AgedAll(moved.1)
    {
      StartTrails();
      MoveAll(ahead, ray, step);
      AgeTrails();
    }
  }
}
