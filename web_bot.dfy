/** The browser version of the bot and its world,
    `examples/spikeai/web/bot.py`. Its world keeps the bots in a dictionary
    keyed by position; a Python dictionary remembers insertion order, and
    `tick` walks a snapshot of it in that order, so the dictionary is
    modelled as a sequence of `(position, entry)` pairs with distinct keys.
    The random draws of `add_bot` and `tick` are parameters. */
module WebBot {
  import opened Common
  import S = SpikeBot

  class Bot {
    var leftMotor: real
    var rightMotor: real
    var colourReading: int
    var distanceReading: int

    /** `Bot()`: motors off, no readings. */
    constructor ()
      ensures leftMotor == 0.0 && rightMotor == 0.0
      ensures colourReading == 0 && distanceReading == 0
    {
      leftMotor, rightMotor := 0.0, 0.0;
      colourReading, distanceReading := 0, 0;
    }

    /** `set_motors(left, right)`: unlike the robot bot, no collision guard. */
    method SetMotors(left: real, right: real)
      modifies this
      ensures leftMotor == left && rightMotor == right
      ensures colourReading == old(colourReading) && distanceReading == old(distanceReading)
    {
      leftMotor := left;
      rightMotor := right;
    }

    /** `input_layer()`: the same one-hot encoding as the robot bot. A reading
        a list of 11 cannot index raises IndexError, hence the requires. */
    method InputLayer() returns (r: seq<real>)
      requires -11 <= colourReading < 11 && -11 <= distanceReading + 5 < 11
      ensures r == S.Encoding(colourReading, distanceReading)
    {
      r := seq(11, _ => 0.0);
      r := r[PyIndex(colourReading, 11) := 1.0];
      r := r[PyIndex(distanceReading + 5, 11) := 1.0];
      assert forall k :: 0 <= k < 11 ==> r[k] == S.Encoding(colourReading, distanceReading)[k];
    }
  }

  // ---------------------------------------------------------------------
  // The dictionary of bots

  /** The value `{"bot": bot, "heading": heading}` stored per position. */
  datatype Entry = Entry(bot: Bot, heading: int)

  /** The items of `self.bots`, in insertion order. */
  type Bots = seq<(Cell, Entry)>

  /** The keys of the dictionary, in order. */
  function Cells(bots: Bots): (r: seq<Cell>)
    ensures |r| == |bots|
    ensures forall k :: 0 <= k < |bots| ==> r[k] == bots[k].0
  {
    seq(|bots|, k requires 0 <= k < |bots| => bots[k].0)
  }

  /** The values of the dictionary, in order. */
  function Values(bots: Bots): (r: seq<Entry>)
    ensures |r| == |bots|
    ensures forall k :: 0 <= k < |bots| ==> r[k] == bots[k].1
  {
    seq(|bots|, k requires 0 <= k < |bots| => bots[k].1)
  }

  /** A dictionary holds each key once. */
  predicate UniqueKeys(bots: Bots)
  {
    forall i, j :: 0 <= i < j < |bots| ==> bots[i].0 != bots[j].0
  }

  /** `del self.bots[c]`, where the key may appear anywhere. */
  function Without(bots: Bots, c: Cell): (r: Bots)
    ensures |r| <= |bots|
  {
    if bots == [] then []
    else if bots[0].0 == c then Without(bots[1..], c)
    else [bots[0]] + Without(bots[1..], c)
  }

  /** Every item left after a deletion was there before, with another key. */
  lemma {:induction false} WithoutFrom(bots: Bots, c: Cell, k: nat)
    requires k < |Without(bots, c)|
    ensures Without(bots, c)[k] in bots && Without(bots, c)[k].0 != c
  {
    var tail := bots[1..];
    if bots[0].0 == c {
      WithoutFrom(tail, c, k);
    } else if k > 0 {
      WithoutFrom(tail, c, k - 1);
    }
    assert Without(bots, c)[k] in tail ==> Without(bots, c)[k] in bots;
  }

  lemma ValuesConcat(a: Bots, b: Bots)
    ensures Values(a + b) == Values(a) + Values(b)
  {
    assert forall k :: 0 <= k < |a + b| ==> Values(a + b)[k] == (Values(a) + Values(b))[k];
  }

  /** Deleting a key that is not there changes nothing. */
  lemma {:induction false} WithoutAbsent(bots: Bots, c: Cell)
    requires c !in Cells(bots)
    ensures Without(bots, c) == bots
  {
    if bots != [] {
      assert bots[0].0 == Cells(bots)[0];
      assert Cells(bots[1..]) == Cells(bots)[1..];
      WithoutAbsent(bots[1..], c);
      assert bots == [bots[0]] + bots[1..];
    }
  }

  /** With distinct keys, deleting the key of the `i`-th item removes
      exactly that item and keeps the order of the others. */
  lemma {:induction false} WithoutAt(bots: Bots, i: nat)
    requires UniqueKeys(bots) && i < |bots|
    ensures Without(bots, bots[i].0) == bots[..i] + bots[i + 1..]
  {
    var c := bots[i].0;
    var tail := bots[1..];
    assert UniqueKeys(tail) by {
      forall a, b | 0 <= a < b < |tail|
        ensures tail[a].0 != tail[b].0
      {
        assert tail[a] == bots[a + 1] && tail[b] == bots[b + 1];
      }
    }
    if i == 0 {
      assert c !in Cells(tail) by {
        forall k | 0 <= k < |tail|
          ensures Cells(tail)[k] != c
        {
          assert tail[k] == bots[k + 1];
        }
      }
      WithoutAbsent(tail, c);
      assert bots[..0] + bots[1..] == tail;
    } else {
      assert bots[0].0 != c;
      assert tail[i - 1] == bots[i];
      WithoutAt(tail, i - 1);
      assert [bots[0]] + (tail[..i - 1] + tail[i..]) == bots[..i] + bots[i + 1..];
    }
  }

  /** Adding a bot at a free cell, as `add_bot` does, keeps the keys distinct. */
  lemma AppendFreshUnique(bots: Bots, c: Cell, e: Entry)
    requires UniqueKeys(bots) && c !in Cells(bots)
    ensures UniqueKeys(bots + [(c, e)])
  {
    var r := bots + [(c, e)];
    forall i, j | 0 <= i < j < |r|
      ensures r[i].0 != r[j].0
    {
      if j == |bots| {
        assert Cells(bots)[i] == r[i].0;
      }
    }
  }

  // ---------------------------------------------------------------------
  // One tick

  /** The body of the loop of `tick` for the snapshot item `item`, whose motors
      were drawn as `motors`: the position moves by the left motor along x
      and by the right motor along y, wrapping round the world, and the
      bot moves (to the end of the dictionary) only when the new cell holds
      neither an obstacle nor a bot. */
  function Step(bots: Bots, item: (Cell, Entry), motors: (int, int), width: int, height: int,
                obstacles: map<Cell, string>): (r: Bots)
    requires width != 0 && height != 0
  {
    var target := (PyMod(item.0.0 + motors.0, width), PyMod(item.0.1 + motors.1, height));
    if target !in obstacles && target !in Cells(bots)
    then Without(bots, item.0) + [(target, item.1)]
    else bots
  }

  /** The dictionary after the loop has handled the first `k` items of the
      snapshot `items`, the `j`-th one with the draw `draws(j)`. */
  function Ticked(bots: Bots, items: Bots, k: nat, draws: nat -> (int, int), width: int, height: int,
                  obstacles: map<Cell, string>): Bots
    requires k <= |items|
    requires k > 0 ==> width != 0 && height != 0
  {
    if k == 0 then bots
    else Step(Ticked(bots, items, k - 1, draws, width, height, obstacles), items[k - 1], draws(k - 1),
              width, height, obstacles)
  }

  /** What the loop keeps, from a dictionary with distinct keys `start`:
      the keys stay distinct, the entries are the same ones (each bot keeps
      its heading), and every item the loop has not reached yet is still
      in place, so the `del` of its turn finds its key. */
  ghost predicate TickInvariant(start: Bots, k: nat, current: Bots)
  {
    && UniqueKeys(current)
    && multiset(Values(current)) == multiset(Values(start))
    && forall j :: k <= j < |start| ==> start[j] in current
  }

  /** Taking out the `i`-th item and appending `moved`: where every other
      item lands, and the values are the same when `moved` carries the
      value of the item taken out. */
  lemma MoveToEnd(current: Bots, i: nat, moved: (Cell, Entry))
    requires i < |current|
    ensures var r := current[..i] + current[i + 1..] + [moved];
            && |r| == |current|
            && (forall a :: 0 <= a < i ==> r[a] == current[a])
            && (forall a :: i <= a < |r| - 1 ==> r[a] == current[a + 1])
            && r[|r| - 1] == moved
            && (moved.1 == current[i].1 ==> multiset(Values(r)) == multiset(Values(current)))
  {
    var front, back := current[..i], current[i + 1..];
    assert current == front + [current[i]] + back;
    ValuesConcat(front, back);
    ValuesConcat(front + back, [moved]);
    ValuesConcat(front, [current[i]]);
    ValuesConcat(front + [current[i]], back);
  }

  /** Moving an item to a key no other item has keeps the keys distinct. */
  lemma MovedUnique(current: Bots, i: nat, moved: (Cell, Entry))
    requires UniqueKeys(current) && i < |current| && moved.0 !in Cells(current)
    ensures UniqueKeys(current[..i] + current[i + 1..] + [moved])
  {
    var r := current[..i] + current[i + 1..] + [moved];
    MoveToEnd(current, i, moved);
    forall a, b | 0 <= a < b < |r|
      ensures r[a].0 != r[b].0
    {
      if b == |r| - 1 {
        if a < i {
          assert Cells(current)[a] == r[a].0;
        } else {
          assert Cells(current)[a + 1] == r[a].0;
        }
      }
    }
  }

  /** Moving the `i`-th item keeps every other item. */
  lemma MovedKeeps(current: Bots, i: nat, moved: (Cell, Entry), x: (Cell, Entry))
    requires i < |current| && x in current && x != current[i]
    ensures x in current[..i] + current[i + 1..] + [moved]
  {
    var r := current[..i] + current[i + 1..] + [moved];
    MoveToEnd(current, i, moved);
    var m :| 0 <= m < |current| && current[m] == x;
    if m < i {
      assert r[m] == x;
    } else {
      assert r[m - 1] == x;
    }
  }

  lemma StepKeeps(start: Bots, k: nat, current: Bots, motors: (int, int), width: int, height: int,
                  obstacles: map<Cell, string>)
    requires UniqueKeys(start) && k < |start| && width != 0 && height != 0
    requires TickInvariant(start, k, current)
    ensures TickInvariant(start, k + 1, Step(current, start[k], motors, width, height, obstacles))
  {
    var item := start[k];
    var target := (PyMod(item.0.0 + motors.0, width), PyMod(item.0.1 + motors.1, height));
    if target !in obstacles && target !in Cells(current) {
      var i :| 0 <= i < |current| && current[i] == item;
      var moved := (target, item.1);
      var r := current[..i] + current[i + 1..] + [moved];
      assert Step(current, item, motors, width, height, obstacles) == r by {
        WithoutAt(current, i);
      }
      MoveToEnd(current, i, moved);
      assert multiset(Values(r)) == multiset(Values(start));
      MovedUnique(current, i, moved);
      forall j | k + 1 <= j < |start|
        ensures start[j] in r
      {
        MovedKeeps(current, i, moved, start[j]);
      }
    }
  }

  /** The loop invariant holds before the first iteration. */
  lemma TickInvariantStarts(start: Bots)
    requires UniqueKeys(start)
    ensures TickInvariant(start, 0, start)
  {
    forall j | 0 <= j < |start|
      ensures start[j] in start
    {
      assert start[j] == start[j];
    }
  }

  /** One more iteration of the loop keeps the invariant. */
  lemma TickedStepKeeps(start: Bots, k: nat, draws: nat -> (int, int), width: int, height: int,
                        obstacles: map<Cell, string>)
    requires UniqueKeys(start) && k < |start| && width != 0 && height != 0
    requires TickInvariant(start, k, Ticked(start, start, k, draws, width, height, obstacles))
    ensures TickInvariant(start, k + 1, Ticked(start, start, k + 1, draws, width, height, obstacles))
  {
    StepKeeps(start, k, Ticked(start, start, k, draws, width, height, obstacles), draws(k),
              width, height, obstacles);
  }

  /** The loop invariant holds all the way through `tick`. */
  lemma {:induction false} TickedKeeps(start: Bots, k: nat, draws: nat -> (int, int), width: int, height: int,
                                       obstacles: map<Cell, string>)
    requires UniqueKeys(start) && k <= |start|
    requires k > 0 ==> width != 0 && height != 0
    ensures TickInvariant(start, k, Ticked(start, start, k, draws, width, height, obstacles))
  {
    if k == 0 {
      TickInvariantStarts(start);
    } else {
      TickedKeeps(start, k - 1, draws, width, height, obstacles);
      TickedStepKeeps(start, k - 1, draws, width, height, obstacles);
    }
  }

  /** A tick loses no bot, duplicates none, keeps every bot's heading and
      keeps the keys distinct. */
  lemma TickPreserves(start: Bots, draws: nat -> (int, int), width: int, height: int,
                      obstacles: map<Cell, string>)
    requires UniqueKeys(start)
    requires start != [] ==> width != 0 && height != 0
    ensures var r := Ticked(start, start, |start|, draws, width, height, obstacles);
            |r| == |start| && UniqueKeys(r) && multiset(Values(r)) == multiset(Values(start))
  {
    TickedKeeps(start, |start|, draws, width, height, obstacles);
    var r := Ticked(start, start, |start|, draws, width, height, obstacles);
    assert |multiset(Values(r))| == |Values(r)|;
    assert |multiset(Values(start))| == |Values(start)|;
  }

  /** Every position lies inside a positive-sized world. */
  ghost predicate AllInBounds(bots: Bots, width: int, height: int)
  {
    forall k :: 0 <= k < |bots| ==> InBounds(bots[k].0, width, height)
  }

  /** The wrap-around keeps a world with positive sides closed: no bot ever
      leaves it. */
  lemma {:induction false} TickedInBounds(bots: Bots, items: Bots, k: nat, draws: nat -> (int, int),
                                          width: int, height: int, obstacles: map<Cell, string>)
    requires k <= |items| && width > 0 && height > 0
    requires AllInBounds(bots, width, height)
    ensures AllInBounds(Ticked(bots, items, k, draws, width, height, obstacles), width, height)
  {
    if k > 0 {
      TickedInBounds(bots, items, k - 1, draws, width, height, obstacles);
      var t := Ticked(bots, items, k - 1, draws, width, height, obstacles);
      var r := Ticked(bots, items, k, draws, width, height, obstacles);
      forall m | 0 <= m < |r|
        ensures InBounds(r[m].0, width, height)
      {
        if r != t && m < |r| - 1 {
          WithoutFrom(t, items[k - 1].0, m);
        }
      }
    }
  }

  // ---------------------------------------------------------------------
  // The world

  class BotWorld {
    var width: int
    var height: int
    var obstacles: map<Cell, string>
    var bots: Bots

    /** `BotWorld(width, height)`: an empty world. */
    constructor (width: int, height: int)
      ensures this.width == width && this.height == height
      ensures obstacles == map[] && bots == []
    {
      this.width := width;
      this.height := height;
      obstacles := map[];
      bots := [];
    }

    /** `add_bot(bot)` with the drawn position `(x, y)` and heading: a taken
        cell raises ValueError, a free one receives the bot at the end of the
        dictionary. `randint` draws `x` in `1..width-1`, `y` in `1..height-1`
        and the heading in `0..360`; an empty range raises, hence the requires. */
    method AddBot(bot: Bot, x: int, y: int, heading: int) returns (r: Result<()>)
      requires 1 <= x <= width - 1 && 1 <= y <= height - 1 && 0 <= heading <= 360
      modifies this
      ensures r.ValueError? <==> (x, y) in old(obstacles) || (x, y) in Cells(old(bots))
      ensures r.ValueError? ==> r.message == "Random position already occupied by another bot or obstacle."
      ensures r.ValueError? ==> bots == old(bots)
      ensures r.Ok? ==> bots == old(bots) + [((x, y), Entry(bot, heading))]
      ensures width == old(width) && height == old(height) && obstacles == old(obstacles)
    {
      if (x, y) !in obstacles && (x, y) !in Cells(bots) {
        bots := bots + [((x, y), Entry(bot, heading))];
        r := Ok(());
      } else {
        r := ValueError("Random position already occupied by another bot or obstacle.");
      }
    }

    /** `add_obstacle(x, y, kind)`: the first obstacle placed at a cell stays;
        any kind is accepted. */
    method AddObstacle(x: int, y: int, kind: string)
      modifies this
      ensures (x, y) in old(obstacles) ==> obstacles == old(obstacles)
      ensures (x, y) !in old(obstacles) ==> obstacles == old(obstacles)[(x, y) := kind]
      ensures width == old(width) && height == old(height) && bots == old(bots)
    {
      if (x, y) !in obstacles {
        obstacles := obstacles[(x, y) := kind];
      }
    }

    /** `tick()`: the `k`-th bot of the snapshot moves by the motors
        `draws(k)`. A zero side makes `%` raise ZeroDivisionError, hence
        the requires. */
    method Tick(draws: nat -> (int, int))
      requires bots != [] ==> width != 0 && height != 0
      modifies this
      ensures width == old(width) && height == old(height) && obstacles == old(obstacles)
      ensures bots == Ticked(old(bots), old(bots), |old(bots)|, draws, width, height, obstacles)
    {
      var items := bots;
      var k := 0;
      while k < |items|
        invariant 0 <= k <= |items| && items == old(bots)
        invariant width == old(width) && height == old(height) && obstacles == old(obstacles)
        invariant bots == Ticked(items, items, k, draws, width, height, obstacles)
      {
        var (position, info) := items[k];
        var (left, right) := draws(k);
        var target := (PyMod(position.0 + left, width), PyMod(position.1 + right, height));
        if target !in obstacles && target !in Cells(bots) {
          bots := Without(bots, position);
          bots := bots + [(target, Entry(info.bot, info.heading))];
        }
        k := k + 1;
      }
    }
  }
}
