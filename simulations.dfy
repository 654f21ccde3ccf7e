/*
  The duel between two spaceships: each tick both ships test whether the
  enemy is inside their weapon cone, the tick is classified and recorded,
  and, unless the tick was decisive, ship 1 and then ship 2 move, each
  steering by the other's position and heading as they were before the tick.

  `RunFrom` is the whole run as a function of the two ships' states; the
  class `Simulation` carries out the run in place on two `Spaceship` objects
  and is proved to reach exactly what `RunFrom` describes.
*/
module Simulations {
  import opened Vectors
  import opened Spaceships

  // ---------------------------------------------------------------------
  // Results of a tick

  const BothDestroyed: string := "BOTH_DESTROYED"
  const Ship1Wins: string := "SHIP_1_WINS"
  const Ship2Wins: string := "SHIP_2_WINS"
  const Ongoing: string := "ONGOING"

  /** The result of a tick from whether each ship has its enemy in its cone:
      both, ship 1 only, ship 2 only, or neither. */
  function Classify(ship1Win: bool, ship2Win: bool): (r: string)
    ensures r == BothDestroyed <==> ship1Win && ship2Win
    ensures r == Ship1Wins <==> ship1Win && !ship2Win
    ensures r == Ship2Wins <==> !ship1Win && ship2Win
    ensures r == Ongoing <==> !ship1Win && !ship2Win
  {
    if ship1Win && ship2Win then BothDestroyed
    else if ship1Win then Ship1Wins
    else if ship2Win then Ship2Wins
    else Ongoing
  }

  /** The result of a tick for ships in the given states; it raises when a
      ship in range cannot measure its angle to the enemy. Ship 1 is tested
      first, so its error is the one raised when both would raise. */
  function Outcome(m: MathLib, s1: Ship, s2: Ship): (r: Result<string>)
    ensures r.Err? ==> r.error == ZeroDivisionError
    ensures r.Ok? ==> r.value in {BothDestroyed, Ship1Wins, Ship2Wins, Ongoing}
    ensures r.Ok? ==>
      (r.value == Ongoing <==>
         IsEnemyInWeaponRange(m, s1, Some(s2)) == Ok(false) && IsEnemyInWeaponRange(m, s2, Some(s1)) == Ok(false))
  {
    var ship1Win :- IsEnemyInWeaponRange(m, s1, Some(s2));
    var ship2Win :- IsEnemyInWeaponRange(m, s2, Some(s1));
    Ok(Classify(ship1Win, ship2Win))
  }

  // ---------------------------------------------------------------------
  // Records

  /** One row of the simulation's log. */
  datatype Data = Data(
    index: int,
    result: string,
    ship1Strategy: string,
    ship2Strategy: string,
    ship1Position: Vector,
    ship2Position: Vector,
    ship1Direction: Vector,
    ship2Direction: Vector,
    ship1PositionX: real,
    ship1PositionY: real,
    ship1PositionZ: real,
    ship2PositionX: real,
    ship2PositionY: real,
    ship2PositionZ: real,
    ship1DirectionX: real,
    ship1DirectionY: real,
    ship1DirectionZ: real,
    ship2DirectionX: real,
    ship2DirectionY: real,
    ship2DirectionZ: real,
    shipDistance: real,
    ship1AngleToEnemy: real,
    ship2AngleToEnemy: real)

  /** The flattened coordinates of a row are those of its vectors. */
  predicate Flattened(d: Data) {
    && d.ship1PositionX == d.ship1Position.x && d.ship1PositionY == d.ship1Position.y
    && d.ship1PositionZ == d.ship1Position.z
    && d.ship2PositionX == d.ship2Position.x && d.ship2PositionY == d.ship2Position.y
    && d.ship2PositionZ == d.ship2Position.z
    && d.ship1DirectionX == d.ship1Direction.x && d.ship1DirectionY == d.ship1Direction.y
    && d.ship1DirectionZ == d.ship1Direction.z
    && d.ship2DirectionX == d.ship2Direction.x && d.ship2DirectionY == d.ship2Direction.y
    && d.ship2DirectionZ == d.ship2Direction.z
  }

  /** Whether a row shows the two ships in the given states. */
  predicate Shows(d: Data, s1: Ship, s2: Ship) {
    && d.ship1Strategy == s1.strategy && d.ship2Strategy == s2.strategy
    && d.ship1Position == s1.position && d.ship2Position == s2.position
    && d.ship1Direction == s1.direction && d.ship2Direction == s2.direction
  }

  /** The row for a tick: the ships' strategies, positions and headings,
      their distance and each one's angle to the other, which raises when it
      cannot be measured. */
  function MakeRecord(m: MathLib, index: int, result: string, s1: Ship, s2: Ship): (r: Result<Data>)
    ensures r.Err? <==> AngleToEnemyDegree(m, s1, Some(s2)).Err? || AngleToEnemyDegree(m, s2, Some(s1)).Err?
    ensures r.Err? ==> r.error == ZeroDivisionError
    ensures r.Ok? ==>
      && r.value.index == index && r.value.result == result
      && Shows(r.value, s1, s2) && Flattened(r.value)
      && r.value.shipDistance == Distance(m, s1.position, s2.position)
      && r.value.ship1AngleToEnemy == AngleToEnemyDegree(m, s1, Some(s2)).value.value
      && r.value.ship2AngleToEnemy == AngleToEnemyDegree(m, s2, Some(s1)).value.value
  {
    var angle1 :- AngleToEnemyDegree(m, s1, Some(s2));
    var angle2 :- AngleToEnemyDegree(m, s2, Some(s1));
    Ok(Data(
      index, result, s1.strategy, s2.strategy,
      s1.position, s2.position, s1.direction, s2.direction,
      s1.position.x, s1.position.y, s1.position.z,
      s2.position.x, s2.position.y, s2.position.z,
      s1.direction.x, s1.direction.y, s1.direction.z,
      s2.direction.x, s2.direction.y, s2.direction.z,
      DistanceToEnemy(m, s1, Some(s2)).value, angle1.value, angle2.value))
  }

  /** The row a tick appends, or the error raised before it is appended. */
  function Record(m: MathLib, index: int, s1: Ship, s2: Ship): (r: Result<Data>)
    ensures r.Err? <==>
      || Outcome(m, s1, s2).Err?
      || AngleToEnemyDegree(m, s1, Some(s2)).Err? || AngleToEnemyDegree(m, s2, Some(s1)).Err?
    ensures r.Err? ==> r.error == ZeroDivisionError
    ensures r.Ok? ==> r.value.index == index && Shows(r.value, s1, s2) && Flattened(r.value)
    ensures r.Ok? ==>
      && Outcome(m, s1, s2) == Ok(r.value.result)
      && r.value.shipDistance == Distance(m, s1.position, s2.position)
      && r.value.ship1AngleToEnemy == AngleToEnemyDegree(m, s1, Some(s2)).value.value
      && r.value.ship2AngleToEnemy == AngleToEnemyDegree(m, s2, Some(s1)).value.value
  {
    var result :- Outcome(m, s1, s2);
    MakeRecord(m, index, result, s1, s2)
  }

  // ---------------------------------------------------------------------
  // One tick

  /** What one tick does: the rows it appends (none or one), the exception
      it raises, the states it leaves the ships in, and whether the run goes
      on to the next tick. */
  datatype Tick = Tick(data: seq<Data>, error: Option<Error>, ship1: Ship, ship2: Ship, carryOn: bool)

  /** Whether two ship states differ only in strategy, position and heading. */
  predicate SameFrame(a: Ship, b: Ship) {
    && a.speed == b.speed && a.turningSpeed == b.turningSpeed
    && a.weaponRange == b.weaponRange && a.weaponAngleDegrees == b.weaponAngleDegrees
    && a.name == b.name
  }

  /** What every tick from ships `s1` and `s2` at tick `index` promises: at
      most one row, numbered `index`, consistent, and showing the ships as the
      tick found them; the run goes on only after an ONGOING row and without
      an exception; a run that stops without an exception stops on a decisive
      row; the ships move only after an ONGOING row, so a tick that records no
      row (it raised first) or a decisive one leaves them as they were; only
      strategies, positions and headings change. */
  predicate TickShape(t: Tick, s1: Ship, s2: Ship, index: int) {
    && |t.data| <= 1
    && (t.data != [] ==> t.data[0].index == index && Shows(t.data[0], s1, s2) && Flattened(t.data[0]))
    && (t.carryOn ==> t.error.None? && |t.data| == 1 && t.data[0].result == Ongoing)
    && (!t.carryOn ==> (t.error.None? <==> t.data != [] && t.data[0].result != Ongoing))
    && SameFrame(t.ship1, s1) && SameFrame(t.ship2, s2)
    && (t.data == [] || t.data[0].result != Ongoing ==> t.ship1 == s1 && t.ship2 == s2)
  }

  /** One tick of the loop in `Simulation.__init__`. A decisive row stops the
      run before anyone moves. After an ONGOING row ship 1 steers by ship 2's
      position and heading, then ship 2 by ship 1's position and heading from
      before ship 1 moved, while ship 2's strategy is decided from ship 1 as it
      is after moving. */
  function TickFrom(m: MathLib, s1: Ship, s2: Ship, index: int): (t: Tick)
    ensures TickShape(t, s1, s2, index)
  {
    match Record(m, index, s1, s2)
    case Err(e) => Tick([], Some(e), s1, s2, false)
    case Ok(record) =>
      if record.result != Ongoing then Tick([record], None, s1, s2, false)
      else
        var step1 := Moved(m, s1, Some(s2), Some(s2.position), Some(s2.direction));
        if step1.error.Some? then Tick([record], step1.error, step1.ship, s2, false)
        else
          var step2 := Moved(m, s2, Some(step1.ship), Some(s1.position), Some(s1.direction));
          Tick([record], step2.error, step1.ship, step2.ship, step2.error.None?)
  }

  /** The order of the moves within a tick: ship 2's strategy is decided
      from ship 1 as it is after moving, while ship 2 steers by ship 1's
      position and heading from before the tick. */
  lemma TickOrder(m: MathLib, s1: Ship, s2: Ship, index: int)
    ensures var t := TickFrom(m, s1, s2, index);
      var chosen := ChosenStrategy(m, s2, Some(t.ship1));
      t.carryOn ==>
        && t.ship1 == Moved(m, s1, Some(s2), Some(s2.position), Some(s2.direction)).ship
        && chosen.Ok? && t.ship2.strategy == chosen.value
        && ImplementedDirection(m, s2.(strategy := chosen.value), Some(s1.position), Some(s1.direction))
             == Ok(t.ship2.direction)
  {
  }

  /** What a tick promises about the ships' movement, given ships with unit
      headings and non-negative turning speeds: the headings stay unit
      vectors and turn by at most each ship's turning speed, and a tick that
      goes on moves each ship along its new heading by exactly its speed. */
  ghost predicate Steers(m: MathLib, t: Tick, s1: Ship, s2: Ship) {
    && UnitHeading(s1) && UnitHeading(s2)
    && 0.0 <= s1.turningSpeed && 0.0 <= s2.turningSpeed
    ==>
    && UnitHeading(t.ship1) && UnitHeading(t.ship2)
    && Turned(m, s1.direction, t.ship1.direction, s1.turningSpeed)
    && Turned(m, s2.direction, t.ship2.direction, s2.turningSpeed)
    && (t.carryOn ==>
          && t.ship1.position == Add(s1.position, Scale(t.ship1.direction, s1.speed))
          && t.ship2.position == Add(s2.position, Scale(t.ship2.direction, s2.speed))
          && Distance(m, s1.position, t.ship1.position) == Abs(s1.speed)
          && Distance(m, s2.position, t.ship2.position) == Abs(s2.speed))
  }

  lemma TickMoves(m: MathLib, s1: Ship, s2: Ship, index: int)
    requires Lawful(m)
    ensures Steers(m, TickFrom(m, s1, s2, index), s1, s2)
  {
    if UnitHeading(s1) && UnitHeading(s2) && 0.0 <= s1.turningSpeed && 0.0 <= s2.turningSpeed {
      KeptHeadingIsTurned(m, s1);
      KeptHeadingIsTurned(m, s2);
      var step1 := Moved(m, s1, Some(s2), Some(s2.position), Some(s2.direction));
      MoveSteers(m, s1, Some(s2), Some(s2.position), Some(s2.direction));
      MoveSteers(m, s2, Some(step1.ship), Some(s1.position), Some(s1.direction));
    }
  }

  /** A move from a unit heading ends on a unit heading turned by at most the
      turning speed, and, when it does not raise, one speed-step along it. */
  ghost predicate SteppedWell(m: MathLib, s: Ship, r: Step) {
    && UnitHeading(r.ship) && Turned(m, s.direction, r.ship.direction, s.turningSpeed)
    && (r.error.None? ==>
          && r.ship.position == Add(s.position, Scale(r.ship.direction, s.speed))
          && Distance(m, s.position, r.ship.position) == Abs(s.speed))
  }

  lemma MoveSteers(m: MathLib, s: Ship, enemy: Option<Ship>, enemyPosition: Option<Vector>,
                   enemyDirection: Option<Vector>)
    requires Lawful(m)
    requires UnitHeading(s) && 0.0 <= s.turningSpeed
    ensures SteppedWell(m, s, Moved(m, s, enemy, enemyPosition, enemyDirection))
  {
    MovePreservesUnitHeading(m, s, enemy, enemyPosition, enemyDirection);
    MoveAdvancesBySpeed(m, s, enemy, enemyPosition, enemyDirection);
  }

  /** The simulation's tick as a function value. */
  function TickOf(m: MathLib): (Ship, Ship, int) -> Tick {
    (s1: Ship, s2: Ship, index: int) => TickFrom(m, s1, s2, index)
  }

  /** Whether `tick` keeps every promise of a tick. */
  ghost predicate Ticking(tick: (Ship, Ship, int) -> Tick) {
    forall s1, s2, index :: TickShape(tick(s1, s2, index), s1, s2, index)
  }

  /** Whether `tick` moves ships as a tick does. */
  ghost predicate Moving(m: MathLib, tick: (Ship, Ship, int) -> Tick) {
    forall s1, s2, index :: Steers(m, tick(s1, s2, index), s1, s2)
  }

  /** The simulation's tick keeps the promises of a tick, and moves ships as
      one does when the math primitives are lawful. */
  lemma TickOfTicks(m: MathLib)
    ensures Ticking(TickOf(m))
    ensures Lawful(m) ==> Moving(m, TickOf(m))
  {
    if Lawful(m) {
      forall s1, s2, index
        ensures Steers(m, TickOf(m)(s1, s2, index), s1, s2)
      {
        TickMoves(m, s1, s2, index);
      }
    }
  }

  // ---------------------------------------------------------------------
  // The run

  /** A run: the rows appended, the exception that ended it (if any), and
      the states the two ships were left in. */
  datatype Run = Run(data: seq<Data>, error: Option<Error>, ship1: Ship, ship2: Ship)

  /** The rows `data`, followed by the run `r`. */
  function Then(data: seq<Data>, r: Run): Run {
    r.(data := data + r.data)
  }

  /** The loop from tick `index` up to (but not including) tick `ticks`,
      doing `tick` each time. */
  function RunWith(tick: (Ship, Ship, int) -> Tick, s1: Ship, s2: Ship, index: int, ticks: int): (r: Run)
    decreases ticks - index
  {
    if ticks <= index then Run([], None, s1, s2)
    else
      var t := tick(s1, s2, index);
      if t.carryOn then Then(t.data, RunWith(tick, t.ship1, t.ship2, index + 1, ticks))
      else Run(t.data, t.error, t.ship1, t.ship2)
  }

  /** The simulation's run from tick `index`. */
  function RunFrom(m: MathLib, s1: Ship, s2: Ship, index: int, ticks: int): Run {
    RunWith(TickOf(m), s1, s2, index, ticks)
  }

  lemma ThenAppends(a: seq<Data>, b: seq<Data>, r: Run)
    ensures Then(a, Then(b, r)) == Then(a + b, r)
  {
    assert a + (b + r.data) == (a + b) + r.data;
  }

  /** A run's rows are numbered consecutively from its first tick, one row
      per tick, never more rows than ticks, and none at all when no tick is
      left. */
  lemma {:induction false} RunIndexes(tick: (Ship, Ship, int) -> Tick, s1: Ship, s2: Ship, index: int, ticks: int)
    requires Ticking(tick)
    ensures var r := RunWith(tick, s1, s2, index, ticks);
      && (forall i :: 0 <= i < |r.data| ==> r.data[i].index == index + i)
      && (ticks <= index ==> r.data == [])
      && (index < ticks ==> |r.data| <= ticks - index)
    decreases ticks - index
  {
    if index < ticks {
      var t := tick(s1, s2, index);
      if t.carryOn {
        RunIndexes(tick, t.ship1, t.ship2, index + 1, ticks);
      }
    }
  }

  /** Every row but the last is ONGOING; the run ends early without an
      exception exactly when its last row is decisive, and a run that raised
      recorded no decisive row. */
  lemma {:induction false} RunStopsAtDecisive(tick: (Ship, Ship, int) -> Tick, s1: Ship, s2: Ship,
                                              index: int, ticks: int)
    requires Ticking(tick)
    ensures var r := RunWith(tick, s1, s2, index, ticks);
      && (forall i :: 0 <= i < |r.data| - 1 ==> r.data[i].result == Ongoing)
      && (r.error.Some? ==> forall i :: 0 <= i < |r.data| ==> r.data[i].result == Ongoing)
      && (r.error.None? && |r.data| < ticks - index ==> r.data != [] && r.data[|r.data| - 1].result != Ongoing)
      && (r.data != [] && r.data[|r.data| - 1].result != Ongoing ==> r.error.None?)
    decreases ticks - index
  {
    if index < ticks {
      var t := tick(s1, s2, index);
      if t.carryOn {
        var rest := RunWith(tick, t.ship1, t.ship2, index + 1, ticks);
        RunStopsAtDecisive(tick, t.ship1, t.ship2, index + 1, ticks);
        RunIndexes(tick, t.ship1, t.ship2, index + 1, ticks);
        assert forall i :: 1 <= i < |t.data + rest.data| ==> (t.data + rest.data)[i] == rest.data[i - 1];
      }
    }
  }

  /** Every row of a run is consistent: its flattened coordinates are those
      of its vectors. The first row shows the ships as the run found them. */
  lemma {:induction false} RunRecordsFlattened(tick: (Ship, Ship, int) -> Tick, s1: Ship, s2: Ship,
                                               index: int, ticks: int)
    requires Ticking(tick)
    ensures var r := RunWith(tick, s1, s2, index, ticks);
      && (forall i :: 0 <= i < |r.data| ==> Flattened(r.data[i]))
      && (r.data != [] ==> Shows(r.data[0], s1, s2))
    decreases ticks - index
  {
    if index < ticks {
      var t := tick(s1, s2, index);
      if t.carryOn {
        var rest := RunWith(tick, t.ship1, t.ship2, index + 1, ticks);
        RunRecordsFlattened(tick, t.ship1, t.ship2, index + 1, ticks);
        assert forall i :: 1 <= i < |t.data + rest.data| ==> (t.data + rest.data)[i] == rest.data[i - 1];
      }
    }
  }

  /** A run changes only the ships' strategies, positions and headings; when
      it ends on a decisive row, the ships are left as that row shows them. */
  lemma {:induction false} RunKeepsFrames(tick: (Ship, Ship, int) -> Tick, s1: Ship, s2: Ship,
                                          index: int, ticks: int)
    requires Ticking(tick)
    ensures var r := RunWith(tick, s1, s2, index, ticks);
      && SameFrame(r.ship1, s1) && SameFrame(r.ship2, s2)
      && (r.data != [] && r.data[|r.data| - 1].result != Ongoing ==> Shows(r.data[|r.data| - 1], r.ship1, r.ship2))
    decreases ticks - index
  {
    if index < ticks {
      var t := tick(s1, s2, index);
      if t.carryOn {
        var rest := RunWith(tick, t.ship1, t.ship2, index + 1, ticks);
        RunKeepsFrames(tick, t.ship1, t.ship2, index + 1, ticks);
        if rest.data != [] {
          assert (t.data + rest.data)[|t.data + rest.data| - 1] == rest.data[|rest.data| - 1];
        }
      }
    }
  }

  /** Both ships keep unit headings throughout a run, in every row and in
      the states they are left in. */
  lemma {:induction false} RunKeepsUnitHeadings(m: MathLib, tick: (Ship, Ship, int) -> Tick, s1: Ship, s2: Ship,
                                                index: int, ticks: int)
    requires Ticking(tick) && Moving(m, tick)
    requires UnitHeading(s1) && UnitHeading(s2)
    requires 0.0 <= s1.turningSpeed && 0.0 <= s2.turningSpeed
    ensures var r := RunWith(tick, s1, s2, index, ticks);
      && UnitHeading(r.ship1) && UnitHeading(r.ship2)
      && (forall i :: 0 <= i < |r.data| ==>
            Dot(r.data[i].ship1Direction, r.data[i].ship1Direction) == 1.0
            && Dot(r.data[i].ship2Direction, r.data[i].ship2Direction) == 1.0)
    decreases ticks - index
  {
    if index < ticks {
      var t := tick(s1, s2, index);
      assert TickShape(t, s1, s2, index);
      assert Steers(m, t, s1, s2);
      assert UnitHeading(t.ship1) && UnitHeading(t.ship2);
      if t.carryOn {
        var rest := RunWith(tick, t.ship1, t.ship2, index + 1, ticks);
        RunKeepsUnitHeadings(m, tick, t.ship1, t.ship2, index + 1, ticks);
        assert forall i :: 1 <= i < |t.data + rest.data| ==> (t.data + rest.data)[i] == rest.data[i - 1];
      }
    }
  }

  /** Row `b` follows row `a`: each ship has turned by at most its turning
      speed and advanced along its heading in `b` by its speed, which moved
      it exactly `|speed|`. */
  predicate Follows(m: MathLib, a: Data, b: Data, s1: Ship, s2: Ship) {
    var speed1, speed2 := s1.speed, s2.speed;
    && Turned(m, a.ship1Direction, b.ship1Direction, s1.turningSpeed)
    && Turned(m, a.ship2Direction, b.ship2Direction, s2.turningSpeed)
    && b.ship1Position == Add(a.ship1Position, Scale(b.ship1Direction, speed1))
    && b.ship2Position == Add(a.ship2Position, Scale(b.ship2Direction, speed2))
    && Distance(m, a.ship1Position, b.ship1Position) == Abs(speed1)
    && Distance(m, a.ship2Position, b.ship2Position) == Abs(speed2)
  }

  /** Between consecutive rows of a run each ship advances along its new
      heading by exactly its speed. */
  lemma {:induction false} RunAdvancesBySpeed(m: MathLib, tick: (Ship, Ship, int) -> Tick, s1: Ship, s2: Ship,
                                              index: int, ticks: int)
    requires Ticking(tick) && Moving(m, tick)
    requires UnitHeading(s1) && UnitHeading(s2)
    requires 0.0 <= s1.turningSpeed && 0.0 <= s2.turningSpeed
    ensures var r := RunWith(tick, s1, s2, index, ticks);
      forall i :: 0 <= i < |r.data| - 1 ==> Follows(m, r.data[i], r.data[i + 1], s1, s2)
    decreases ticks - index
  {
    if index < ticks {
      var t := tick(s1, s2, index);
      assert Steers(m, t, s1, s2);
      if t.carryOn {
        var rest := RunWith(tick, t.ship1, t.ship2, index + 1, ticks);
        RunAdvancesBySpeed(m, tick, t.ship1, t.ship2, index + 1, ticks);
        RunRecordsFlattened(tick, t.ship1, t.ship2, index + 1, ticks);
        var r := t.data + rest.data;
        forall i | 0 <= i < |r| - 1
          ensures Follows(m, r[i], r[i + 1], s1, s2)
        {
          if i == 0 {
            assert r[1] == rest.data[0];
          } else {
            assert r[i] == rest.data[i - 1] && r[i + 1] == rest.data[i];
          }
        }
      }
    }
  }

  /** The simulation's own run from tick 0: no more rows than ticks (none
      for a non-positive tick count), rows numbered from 0 and consistent,
      all ONGOING but possibly the last, and a run that ends early without an
      exception ends on a decisive row. */
  lemma SimulationRecords(m: MathLib, s1: Ship, s2: Ship, ticks: int)
    ensures var r := RunFrom(m, s1, s2, 0, ticks);
      && (ticks <= 0 ==> r.data == [])
      && |r.data| <= (if ticks < 0 then 0 else ticks)
      && (forall i :: 0 <= i < |r.data| ==> r.data[i].index == i && Flattened(r.data[i]))
      && (forall i :: 0 <= i < |r.data| - 1 ==> r.data[i].result == Ongoing)
      && (r.error.None? && |r.data| < ticks ==> r.data != [] && r.data[|r.data| - 1].result != Ongoing)
  {
    TickOfTicks(m);
    RunIndexes(TickOf(m), s1, s2, 0, ticks);
    RunStopsAtDecisive(TickOf(m), s1, s2, 0, ticks);
    RunRecordsFlattened(TickOf(m), s1, s2, 0, ticks);
  }

  /** With lawful math primitives and ships that start with unit headings
      and non-negative turning speeds, the simulation's run keeps both
      headings unit vectors, turns each by at most its turning speed per tick
      and moves each ship by exactly its speed per tick. */
  lemma SimulationMoves(m: MathLib, s1: Ship, s2: Ship, ticks: int)
    requires Lawful(m)
    requires UnitHeading(s1) && UnitHeading(s2)
    requires 0.0 <= s1.turningSpeed && 0.0 <= s2.turningSpeed
    ensures var r := RunFrom(m, s1, s2, 0, ticks);
      && UnitHeading(r.ship1) && UnitHeading(r.ship2)
      && (forall i :: 0 <= i < |r.data| - 1 ==> Follows(m, r.data[i], r.data[i + 1], s1, s2))
  {
    TickOfTicks(m);
    RunKeepsUnitHeadings(m, TickOf(m), s1, s2, 0, ticks);
    RunAdvancesBySpeed(m, TickOf(m), s1, s2, 0, ticks);
  }

  // ---------------------------------------------------------------------
  // The simulation object

  /** The settings recorded for one ship before the run. */
  datatype Settings = Settings(direction: Vector, position: Vector, speed: real, turningSpeed: real,
                               weaponAngleDegrees: real, weaponRange: real)

  function SettingsOf(s: Ship): Settings {
    Settings(s.direction, s.position, s.speed, s.turningSpeed, s.weaponAngleDegrees, s.weaponRange)
  }

  /** `Simulation`: construction makes the two ships each other's enemy and
      runs the whole duel in place. `raised` is the exception that escapes
      construction, if any. */
  class Simulation {
    var ship1: Spaceship
    var ship2: Spaceship
    var initialSettings: map<string, Settings>
    var data: seq<Data>
    var raised: Option<Error>

    constructor (m: MathLib, ship1: Spaceship, ship2: Spaceship, ticks: int := 100)
      requires ship1 != ship2
      modifies ship1, ship2
      ensures this.ship1 == ship1 && this.ship2 == ship2
      ensures ship1.enemy == ship2 && ship2.enemy == ship1
      ensures initialSettings == map["ship1" := SettingsOf(old(ship1.State())), "ship2" := SettingsOf(old(ship2.State()))]
      ensures var r := RunFrom(m, old(ship1.State()), old(ship2.State()), 0, ticks);
        && data == r.data && raised == r.error
        && ship1.State() == r.ship1 && ship2.State() == r.ship2
    {
      this.ship1 := ship1;
      this.ship2 := ship2;
      ship1.enemy := ship2;
      ship2.enemy := ship1;
      initialSettings := map["ship1" := SettingsOf(ship1.State()), "ship2" := SettingsOf(ship2.State())];
      data := [];
      raised := None;
      new;
      ghost var goal := RunFrom(m, ship1.State(), ship2.State(), 0, ticks);
      var index := 0;
      while index < ticks
        invariant ship1.enemy == ship2 && ship2.enemy == ship1
        invariant this.ship1 == ship1 && this.ship2 == ship2
        invariant raised == None
        invariant initialSettings == old(map["ship1" := SettingsOf(ship1.State()), "ship2" := SettingsOf(ship2.State())])
        invariant goal == Then(data, RunFrom(m, ship1.State(), ship2.State(), index, ticks))
        decreases ticks - index
      {
        ghost var s1, s2, before := ship1.State(), ship2.State(), data;
        var carryOn := PlayTick(m, index);
        ghost var t := TickFrom(m, s1, s2, index);
        if !carryOn {
          return;
        }
        ThenAppends(before, t.data, RunFrom(m, t.ship1, t.ship2, index + 1, ticks));
        index := index + 1;
      }
    }

    /** The body of the loop in `__init__` for tick `index`: test both ships'
        weapons, append the row, stop on a decisive result, and otherwise move
        ship 1 and then ship 2, each towards the other's position and heading
        as they were before the tick. Whether the loop goes on is returned. */
    method PlayTick(m: MathLib, index: int) returns (carryOn: bool)
      requires ship1 != ship2 && ship1.enemy == ship2 && ship2.enemy == ship1
      modifies this, ship1, ship2
      ensures ship1 == old(ship1) && ship2 == old(ship2) && initialSettings == old(initialSettings)
      ensures ship1.enemy == ship2 && ship2.enemy == ship1
      ensures var t := TickFrom(m, old(ship1.State()), old(ship2.State()), index);
        && data == old(data) + t.data && carryOn == t.carryOn
        && raised == (if t.carryOn then old(raised) else t.error)
        && ship1.State() == t.ship1 && ship2.State() == t.ship2
    {
      ghost var s1, s2 := ship1.State(), ship2.State();
      assert ship1.EnemyState() == Some(s2) && ship2.EnemyState() == Some(s1);
      var ship1Win := IsEnemyInWeaponRange(m, ship1.State(), ship1.EnemyState());
      if ship1Win.Err? {
        raised := Some(ship1Win.error);
        return false;
      }
      var ship2Win := IsEnemyInWeaponRange(m, ship2.State(), ship2.EnemyState());
      if ship2Win.Err? {
        raised := Some(ship2Win.error);
        return false;
      }
      var result := Classify(ship1Win.value, ship2Win.value);
      var record := MakeRecord(m, index, result, ship1.State(), ship2.State());
      if record.Err? {
        raised := Some(record.error);
        return false;
      }
      assert Record(m, index, s1, s2) == record;
      data := data + [record.value];
      if result != Ongoing {
        raised := None;
        return false;
      }
      var ship1Pos, ship1Dir := ship1.position, ship1.direction;
      var ship2Pos, ship2Dir := ship2.position, ship2.direction;
      var error := ship1.Move(m, Some(ship2Pos), Some(ship2Dir));
      ghost var step1 := Moved(m, s1, Some(s2), Some(s2.position), Some(s2.direction));
      assert ship1.State() == step1.ship && ship2.State() == s2;
      if error.Some? {
        raised := error;
        return false;
      }
      error := ship2.Move(m, Some(ship1Pos), Some(ship1Dir));
      if error.Some? {
        raised := error;
        return false;
      }
      return true;
    }
  }
}
