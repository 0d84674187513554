/** The trundle bot of `examples/spikeai/bot.py` and the grid world it
    senses: motors, sensor readings and their one-hot encoding, the
    obstacle table, and the scans that turn what lies ahead into readings.
    The trigonometry that finds the cells ahead is not modelled: a scan is
    given `ray`, the cell `ray(dist)` at each distance along the heading. */
module SpikeBot {
  import opened Common

  // ---------------------------------------------------------------------
  // Sensor encoding

  /** The 11 inputs `input_layer` builds: 0.0 everywhere, then 1.0 written at
      the colour reading and at the distance reading plus 5. */
  function Encoding(colour: int, distance: int): (r: seq<real>)
    requires -11 <= colour < 11 && -11 <= distance + 5 < 11
    ensures |r| == 11
  {
    seq(11, k requires 0 <= k < 11 =>
      if k == PyIndex(colour, 11) || k == PyIndex(distance + 5, 11) then 1.0 else 0.0)
  }

  /** The readings the sensors are documented to produce. */
  predicate Readings(colour: int, distance: int)
  {
    0 <= colour <= 4 && 0 <= distance <= 5
  }

  /** For proper readings the encoding is one-hot in each of its two parts:
      slots 0..4 carry the colour and slots 5..10 the distance. */
  lemma EncodingOneHot(colour: int, distance: int)
    requires Readings(colour, distance)
    ensures forall k :: 0 <= k < 11 ==> Encoding(colour, distance)[k] in {0.0, 1.0}
    ensures forall k :: 0 <= k < 5 ==> (Encoding(colour, distance)[k] == 1.0 <==> k == colour)
    ensures forall k :: 5 <= k < 11 ==> (Encoding(colour, distance)[k] == 1.0 <==> k == distance + 5)
  {
    var r := Encoding(colour, distance);
    assert PyIndex(colour, 11) == colour && PyIndex(distance + 5, 11) == distance + 5;
  }

  /** The first slot in `[lo, hi)` that holds 1.0, or `hi` when none does. */
  function FirstOne(r: seq<real>, lo: nat, hi: nat): (k: nat)
    requires lo <= hi <= |r|
    ensures lo <= k <= hi
    decreases hi - lo
  {
    if lo == hi then hi else if r[lo] == 1.0 then lo else FirstOne(r, lo + 1, hi)
  }

  lemma {:induction false} FirstOneAt(r: seq<real>, lo: nat, hi: nat, k: nat)
    requires lo <= k < hi <= |r| && r[k] == 1.0
    requires forall m :: lo <= m < k ==> r[m] != 1.0
    ensures FirstOne(r, lo, hi) == k
    decreases k - lo
  {
    if lo < k {
      FirstOneAt(r, lo + 1, hi, k);
    }
  }

  /** The readings an input list stands for. */
  function Decode(r: seq<real>): (readings: (int, int))
    requires |r| == 11
  {
    (FirstOne(r, 0, 5), FirstOne(r, 5, 11) - 5)
  }

  /** The encoding loses nothing: the readings can be read back from it. */
  lemma DecodeEncoding(colour: int, distance: int)
    requires Readings(colour, distance)
    ensures Decode(Encoding(colour, distance)) == (colour, distance)
  {
    var r := Encoding(colour, distance);
    EncodingOneHot(colour, distance);
    FirstOneAt(r, 0, 5, colour);
    FirstOneAt(r, 5, 11, distance + 5);
  }

  // ---------------------------------------------------------------------
  // From network outputs to motors

  /** The speed of one wheel in `SANNBot.drive`: the forward output when it is
      at least the backward one, otherwise the backward output negated. */
  function WheelOutput(forwards: real, backwards: real): (speed: real)
  {
    if forwards >= backwards then forwards else -backwards
  }

  /** For outputs of a sigmoid layer the wheel turns forwards exactly when
      the forward output wins (ties go forwards), at the speed of the larger
      output, and never reaches full speed. */
  lemma WheelOutputMeaning(forwards: real, backwards: real)
    requires 0.0 < forwards < 1.0 && 0.0 < backwards < 1.0
    ensures var speed := WheelOutput(forwards, backwards);
      && -1.0 < speed < 1.0 && speed != 0.0
      && (speed > 0.0 <==> forwards >= backwards)
      && (if speed > 0.0 then speed else -speed) == (if forwards >= backwards then forwards else backwards)
  {
  }

  // ---------------------------------------------------------------------
  // The bot

  class Bot {
    var leftMotor: real
    var rightMotor: real
    var colourReading: int
    var distanceReading: int
    var collided: bool

    /** `Bot()`: motors off, no readings, not collided. */
    constructor ()
      ensures leftMotor == 0.0 && rightMotor == 0.0
      ensures colourReading == 0 && distanceReading == 0
      ensures !collided
    {
      leftMotor, rightMotor := 0.0, 0.0;
      colourReading, distanceReading := 0, 0;
      collided := false;
    }

    /** `set_motors(left, right)`: a collided bot keeps its motors as they are. */
    method SetMotors(left: real, right: real)
      modifies this
      ensures old(collided) ==> leftMotor == old(leftMotor) && rightMotor == old(rightMotor)
      ensures !old(collided) ==> leftMotor == left && rightMotor == right
      ensures collided == old(collided)
      ensures colourReading == old(colourReading) && distanceReading == old(distanceReading)
    {
      if !collided {
        leftMotor := left;
        rightMotor := right;
      }
    }

    /** `input_layer()`. A reading outside what a list of 11 can index raises
        IndexError, hence the requires. */
    method InputLayer() returns (r: seq<real>)
      requires -11 <= colourReading < 11 && -11 <= distanceReading + 5 < 11
      ensures r == Encoding(colourReading, distanceReading)
    {
      r := seq(11, _ => 0.0);
      r := r[PyIndex(colourReading, 11) := 1.0];
      r := r[PyIndex(distanceReading + 5, 11) := 1.0];
      assert forall k :: 0 <= k < 11 ==> r[k] == Encoding(colourReading, distanceReading)[k];
    }

    /** The motor mapping of `SANNBot.drive` for the network's `outputs`:
        outputs 0 and 1 drive the left wheel, 2 and 3 the right. Fewer than
        four outputs raise IndexError. */
    method Drive(outputs: seq<real>)
      requires |outputs| >= 4
      modifies this
      ensures old(collided) ==> leftMotor == old(leftMotor) && rightMotor == old(rightMotor)
      ensures !old(collided) ==>
                leftMotor == WheelOutput(outputs[0], outputs[1]) &&
                rightMotor == WheelOutput(outputs[2], outputs[3])
      ensures collided == old(collided)
      ensures colourReading == old(colourReading) && distanceReading == old(distanceReading)
    {
      var leftWheel, rightWheel;
      if outputs[0] >= outputs[1] {
        leftWheel := outputs[0];
      } else {
        leftWheel := -outputs[1];
      }
      if outputs[2] >= outputs[3] {
        rightWheel := outputs[2];
      } else {
        rightWheel := -outputs[3];
      }
      SetMotors(leftWheel, rightWheel);
    }
  }

  // ---------------------------------------------------------------------
  // The world

  const Wall: string := "\U{1F9F1}"
  const Red: string := "\U{1F7E5}"
  const Green: string := "\U{1F7E9}"
  const Blue: string := "\U{1F7E6}"
  const Yellow: string := "\U{1F7E8}"

  /** The five obstacle kinds `add_obstacle` accepts. */
  predicate KnownKind(kind: string)
  {
    kind == Wall || kind == Red || kind == Green || kind == Blue || kind == Yellow
  }

  /** `COLOR_OBSTACLES`: the reading a coloured obstacle gives, 0 for any
      other kind. */
  function ColourCode(kind: string): (code: int)
    ensures 0 <= code <= 4
    ensures code == 0 <==> kind != Red && kind != Green && kind != Blue && kind != Yellow
  {
    if kind == Red then 1
    else if kind == Green then 2
    else if kind == Blue then 3
    else if kind == Yellow then 4
    else 0
  }

  /** A cell the colour scan looks past: inside the world and empty. */
  predicate Open(width: int, height: int, obstacles: map<Cell, string>, c: Cell)
  {
    InBounds(c, width, height) && c !in obstacles
  }

  /** A cell that ends the distance scan: off the world, an obstacle or a bot. */
  predicate Blocked(width: int, height: int, obstacles: map<Cell, string>, bots: seq<Cell>, c: Cell)
  {
    !InBounds(c, width, height) || c in obstacles || c in bots
  }

  /** What `get_color_ahead` returns when the scan has reached distance `dist`. */
  function ColourScan(width: int, height: int, obstacles: map<Cell, string>, ray: nat -> Cell, dist: nat): (code: int)
    ensures 0 <= code <= 4
    decreases 6 - dist
  {
    if dist > 5 then 0
    else
      var c := ray(dist);
      if !InBounds(c, width, height) then 0
      else if c in obstacles && ColourCode(obstacles[c]) != 0 then ColourCode(obstacles[c])
      else if c in obstacles then 0
      else ColourScan(width, height, obstacles, ray, dist + 1)
  }

  /** The colour the scan finds: the first cell that is not open, when it is
      a coloured obstacle within five steps. */
  lemma {:induction false} ColourScanFinds(width: int, height: int, obstacles: map<Cell, string>, ray: nat -> Cell,
                                           dist: nat, d: nat)
    requires 1 <= dist <= d <= 5
    requires forall e :: dist <= e < d ==> Open(width, height, obstacles, ray(e))
    requires InBounds(ray(d), width, height) && ray(d) in obstacles
    ensures ColourScan(width, height, obstacles, ray, dist) == ColourCode(obstacles[ray(d)])
    decreases d - dist
  {
    if dist < d {
      ColourScanFinds(width, height, obstacles, ray, dist + 1, d);
    }
  }

  /** A colour reading always comes from such a cell; otherwise it is 0. */
  lemma {:induction false} ColourScanSource(width: int, height: int, obstacles: map<Cell, string>, ray: nat -> Cell,
                                            dist: nat) returns (d: nat)
    requires 1 <= dist
    requires ColourScan(width, height, obstacles, ray, dist) != 0
    ensures dist <= d <= 5
    ensures forall e :: dist <= e < d ==> Open(width, height, obstacles, ray(e))
    ensures InBounds(ray(d), width, height) && ray(d) in obstacles
    ensures ColourScan(width, height, obstacles, ray, dist) == ColourCode(obstacles[ray(d)]) != 0
    decreases 6 - dist
  {
    var c := ray(dist);
    if c in obstacles {
      d := dist;
    } else {
      d := ColourScanSource(width, height, obstacles, ray, dist + 1);
    }
  }

  /** What `get_distance_ahead` returns when the scan has reached `dist`:
      the first blocked distance, or 0 when every cell up to 5 is clear. */
  function DistanceScan(width: int, height: int, obstacles: map<Cell, string>, bots: seq<Cell>,
                        ray: nat -> Cell, dist: nat): (r: nat)
    requires dist >= 1
    ensures r == 0 || dist <= r <= 5
    ensures r != 0 ==> Blocked(width, height, obstacles, bots, ray(r))
    ensures forall e :: dist <= e <= 5 && (r == 0 || e < r) ==> !Blocked(width, height, obstacles, bots, ray(e))
    decreases 6 - dist
  {
    if dist > 5 then 0
    else if Blocked(width, height, obstacles, bots, ray(dist)) then dist
    else DistanceScan(width, height, obstacles, bots, ray, dist + 1)
  }

  class BotWorld {
    var width: int
    var height: int
    var obstacles: map<Cell, string>
    /** The cells of the bots in the world (the scans read nothing else of them). */
    var bots: seq<Cell>

    /** `BotWorld(width, height)`: no obstacles and no bots. */
    constructor (width: int, height: int)
      ensures this.width == width && this.height == height
      ensures obstacles == map[] && bots == []
    {
      this.width := width;
      this.height := height;
      obstacles := map[];
      bots := [];
    }

    /** `add_obstacle(x, y, obstacle_type)`: a known kind replaces whatever
        was at the cell; any other kind is ignored. */
    method AddObstacle(x: int, y: int, kind: string)
      modifies this
      ensures KnownKind(kind) ==> obstacles == old(obstacles)[(x, y) := kind]
      ensures !KnownKind(kind) ==> obstacles == old(obstacles)
      ensures width == old(width) && height == old(height) && bots == old(bots)
    {
      if kind == Wall || kind == Red || kind == Green || kind == Blue || kind == Yellow {
        obstacles := obstacles[(x, y) := kind];
      }
    }

    /** `get_color_ahead(x, y, angle)`, with `ray` the cells along the heading. */
    method ColourAhead(ray: nat -> Cell) returns (code: int)
      ensures code == ColourScan(width, height, obstacles, ray, 1)
      ensures 0 <= code <= 4
    {
      for dist := 1 to 6
        invariant ColourScan(width, height, obstacles, ray, dist) == ColourScan(width, height, obstacles, ray, 1)
      {
        var c := ray(dist);
        if !(0 <= c.0 < width && 0 <= c.1 < height) {
          break;
        }
        if c in obstacles && ColourCode(obstacles[c]) != 0 {
          return ColourCode(obstacles[c]);
        }
        if c in obstacles {
          break;
        }
      }
      code := 0;
      assert code == ColourScan(width, height, obstacles, ray, 1);
    }

    /** `get_distance_ahead(x, y, angle)`, with `ray` the cells along the heading. */
    method DistanceAhead(ray: nat -> Cell) returns (dist: nat)
      ensures dist == DistanceScan(width, height, obstacles, bots, ray, 1)
    {
      for d := 1 to 6
        invariant DistanceScan(width, height, obstacles, bots, ray, d) == DistanceScan(width, height, obstacles, bots, ray, 1)
      {
        var c := ray(d);
        if !(0 <= c.0 < width && 0 <= c.1 < height) {
          return d;
        }
        if c in obstacles {
          return d;
        }
        if c in bots {
          return d;
        }
      }
      return 0;
    }
  }
}
