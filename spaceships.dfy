/** The spaceship agent (spaceship.py): a ship that picks a strategy from its
    enemy's distance and bearing, turns by at most its turning speed, and
    advances along its heading.

    The pure reads of the source (`vector_to_enemy`, `distance_to_enemy`,
    `choose_strategy`'s decision, `is_in_weapon_range`, ...) are functions of a
    `Ship` snapshot and of the enemy's snapshot; the class `Spaceship` holds
    the mutable fields and its methods update them in place, each proved to
    reach the state those functions describe. */
module Spaceships {
  import opened Vectors

  /** The labels `choose_strategy` assigns. */
  const Patrol: string := "patrol"
  const ChaseDistance: string := "chase-distance"
  const ChaseAngle: string := "chase-angle"
  const Evade: string := "evade"

  /** A snapshot of every field of a ship except its enemy reference. */
  datatype Ship = Ship(
    position: Vector,
    direction: Vector,
    speed: real,
    turningSpeed: real,
    weaponRange: real,
    weaponAngleDegrees: real,
    name: string,
    strategy: string)

  /** `str.startswith` */
  predicate StartsWith(s: string, prefix: string) {
    |prefix| <= |s| && s[..|prefix|] == prefix
  }

  /** The three prefixes `implement_strategy` dispatches on exclude each other. */
  lemma PrefixesExclusive(t: string)
    ensures StartsWith(t, "chase") ==> !StartsWith(t, "patrol")
    ensures StartsWith(t, "evade") ==> !StartsWith(t, "patrol") && !StartsWith(t, "chase")
  {
    if StartsWith(t, "patrol") {
      assert t[0] == t[..6][0] == 'p';
    }
    if StartsWith(t, "chase") {
      assert t[0] == t[..5][0] == 'c';
    }
    if StartsWith(t, "evade") {
      assert t[0] == t[..5][0] == 'e';
    }
  }

  /** A ship of unit heading, as `move` keeps it. */
  ghost predicate UnitHeading(s: Ship) {
    Dot(s.direction, s.direction) == 1.0
  }

  // ---------------------------------------------------------------------
  // Construction

  /** `Spaceship.__init__`: stores the normalized direction (raising for the
      zero vector) and starts out patrolling. */
  function NewShip(m: MathLib, position: Vector, direction: Vector, speed: real, turningSpeed: real,
                   weaponRange: real, weaponAngleDegrees: real, name: string): (r: Result<Ship>)
    ensures r.Err? ==> r.error == ZeroDivisionError
    ensures r.Ok? ==> r.value.strategy == Patrol
  {
    var unit :- Normalized(m, direction);
    Ok(Ship(position, unit, speed, turningSpeed, weaponRange, weaponAngleDegrees, name, Patrol))
  }

  /** Construction fails exactly for a zero direction; otherwise the stored
      heading is a unit vector along the given one. */
  lemma NewShipFacts(m: MathLib, position: Vector, direction: Vector, speed: real, turningSpeed: real,
                     weaponRange: real, weaponAngleDegrees: real, name: string)
    requires Lawful(m)
    ensures var r := NewShip(m, position, direction, speed, turningSpeed, weaponRange, weaponAngleDegrees, name);
      && (r.Err? <==> direction == Zero())
      && (r.Ok? ==> UnitHeading(r.value) && Scale(r.value.direction, Magnitude(m, direction)) == direction)
  {
    NormalizedIsUnit(m, direction);
  }

  /** `Spaceship()` with every default: at the origin, heading along +x. */
  lemma DefaultShip(m: MathLib)
    requires Lawful(m)
    ensures NewShip(m, Zero(), PlusX(), 1.0, 10.0, 50.0, 15.0, "")
      == Ok(Ship(Zero(), PlusX(), 1.0, 10.0, 50.0, 15.0, "", Patrol))
  {
    NormalizedOfUnit(m, PlusX());
  }

  // ---------------------------------------------------------------------
  // Turning

  /** `turn_towards(point)`: the new heading, a turn along the offset
      `point - position`. */
  function TurnedDirection(m: MathLib, s: Ship, point: Vector): (r: Result<Vector>)
    ensures r.Err? ==> r.error == ZeroDivisionError
  {
    TurnAlong(m, s, Sub(point, s.position))
  }

  /** The body of `turn_towards` once the desired direction is known: if it is
      within `turningSpeed` degrees the ship snaps onto it, otherwise it
      rotates towards it by `turningSpeed`. */
  function TurnAlong(m: MathLib, s: Ship, desired: Vector): (r: Result<Vector>)
    ensures r.Err? ==> r.error == ZeroDivisionError
  {
    var angle :- AngleDegrees(m, s.direction, desired);
    if angle <= s.turningSpeed then Normalized(m, desired)
    else RotateTowardsDegrees(m, s.direction, desired, s.turningSpeed)
  }

  /** The turn is clamped: the new heading is a unit vector at most
      `turningSpeed` degrees from the old one. Within reach, it is exactly the
      desired direction; out of reach, it is exactly `turningSpeed` degrees
      away. It raises only for a desired offset too short to measure an angle
      against, or for one pointing straight behind or ahead out of reach. */
  lemma TurnIsClamped(m: MathLib, s: Ship, desired: Vector)
    requires Lawful(m)
    requires UnitHeading(s)
    requires 0.0 <= s.turningSpeed
    ensures var r := TurnAlong(m, s, desired);
      && (r.Err? <==>
            || Dot(desired, desired) < Epsilon * Epsilon
            || (AngleDegrees(m, s.direction, desired).Ok?
                && AngleDegrees(m, s.direction, desired).value > s.turningSpeed
                && Cross(Cross(s.direction, desired), s.direction) == Zero()))
      && (r.Ok? ==>
            && Dot(r.value, r.value) == 1.0
            && AngleDegrees(m, s.direction, r.value).Ok?
            && AngleDegrees(m, s.direction, r.value).value <= s.turningSpeed)
      && (r.Ok? && AngleDegrees(m, s.direction, desired).value <= s.turningSpeed ==>
            && AngleDegrees(m, s.direction, r.value) == AngleDegrees(m, s.direction, desired)
            && Scale(r.value, Magnitude(m, desired)) == desired)
      && (r.Ok? && AngleDegrees(m, s.direction, desired).value > s.turningSpeed ==>
            AngleDegrees(m, s.direction, r.value).value == s.turningSpeed)
  {
    var d := s.direction;
    AngleRange(m, d, desired);
    var angle := AngleDegrees(m, d, desired);
    if angle.Ok? {
      NormalizedIsUnit(m, desired);
      if angle.value <= s.turningSpeed {
        MagnitudeFacts(m, desired);
        var unit := Normalized(m, desired).value;
        var mag := Magnitude(m, desired);
        AngleRange(m, d, unit);
        AngleScaleInvariant(m, d, unit, mag);
      } else {
        var radians := Radians(s.turningSpeed);
        RotateTowardsFails(m, d, desired, radians);
        if RotateTowards(m, d, desired, radians).Ok? {
          RotateTowardsIsExact(m, d, desired, radians);
        }
      }
    }
  }

  // ---------------------------------------------------------------------
  // Reads of the enemy

  /** `vector_to_enemy`: the offset from this ship to its enemy. */
  function VectorToEnemy(s: Ship, enemy: Option<Ship>): (r: Option<Vector>)
    ensures r.Some? <==> enemy.Some?
    ensures r.Some? ==> Add(s.position, r.value) == enemy.value.position
  {
    if enemy.None? then None else Some(Sub(enemy.value.position, s.position))
  }

  /** `direction_to_enemy`: the normalized offset to the enemy. */
  function DirectionToEnemy(m: MathLib, s: Ship, enemy: Option<Ship>): (r: Option<Result<Vector>>)
    ensures r.Some? <==> enemy.Some?
  {
    if enemy.None? then None else Some(Normalized(m, VectorToEnemy(s, enemy).value))
  }

  /** The direction to the enemy is a unit vector along the offset to it; it
      is refused only when both ships are at the same position. */
  lemma DirectionToEnemyIsUnit(m: MathLib, s: Ship, e: Ship)
    requires Lawful(m)
    ensures var r := DirectionToEnemy(m, s, Some(e)).value;
      && (r.Err? <==> e.position == s.position)
      && (r.Ok? ==>
            && Dot(r.value, r.value) == 1.0
            && Scale(r.value, DistanceToEnemy(m, s, Some(e)).value) == Sub(e.position, s.position))
  {
    var v := Sub(e.position, s.position);
    NormalizedIsUnit(m, v);
    assert v == Zero() <==> e.position == s.position;
  }

  /** `distance_to_enemy` */
  function DistanceToEnemy(m: MathLib, s: Ship, enemy: Option<Ship>): (r: Option<real>)
    ensures r.Some? <==> enemy.Some?
    ensures r.Some? ==> r.value == Distance(m, s.position, enemy.value.position)
  {
    if enemy.None? then None else Some(Magnitude(m, VectorToEnemy(s, enemy).value))
  }

  /** Both ships measure the same distance to each other; it is never
      negative, and zero exactly when they share a position. */
  lemma DistanceToEnemyFacts(m: MathLib, s: Ship, e: Ship)
    requires Lawful(m)
    ensures DistanceToEnemy(m, s, Some(e)) == DistanceToEnemy(m, e, Some(s))
    ensures 0.0 <= DistanceToEnemy(m, s, Some(e)).value
    ensures DistanceToEnemy(m, s, Some(e)).value == 0.0 <==> s.position == e.position
  {
    DistanceSymmetric(m, s.position, e.position);
    var v := Sub(e.position, s.position);
    MagnitudeFacts(m, v);
    assert v == Zero() <==> s.position == e.position;
  }

  /** `angle_to_enemy_degree`: the angle in degrees between the offset to the
      enemy and the heading; `None` without an enemy. */
  function AngleToEnemyDegree(m: MathLib, s: Ship, enemy: Option<Ship>): (r: Result<Option<real>>)
    ensures r == Ok(None) <==> enemy.None?
    ensures r.Ok? ==> (r.value.Some? <==> enemy.Some?)
    ensures r.Err? ==> r.error == ZeroDivisionError
  {
    if enemy.None? then Ok(None)
    else
      var angle :- AngleDegrees(m, VectorToEnemy(s, enemy).value, s.direction);
      Ok(Some(angle))
  }

  // ---------------------------------------------------------------------
  // Choosing a strategy

  /** `choose_strategy`'s decision. It reads the live enemy, not the
      positions passed in; it measures the angle before looking at the
      distance, so an unmeasurable angle raises even for a distant enemy. */
  function ChosenStrategy(m: MathLib, s: Ship, enemy: Option<Ship>): (r: Result<string>)
    ensures enemy.None? ==> r == Ok(Patrol)
    ensures r.Ok? ==> r.value in {Patrol, ChaseDistance, ChaseAngle, Evade}
    ensures r.Err? ==> r.error == ZeroDivisionError
  {
    if enemy.None? then Ok(Patrol)
    else
      var distance := DistanceToEnemy(m, s, enemy).value;
      var angle :- AngleToEnemyDegree(m, s, enemy);
      if distance > 2.0 * enemy.value.weaponRange then Ok(ChaseDistance)
      else if angle.value < 90.0 then Ok(ChaseAngle)
      else Ok(Evade)
  }

  /** Whether the enemy, at offset `v`, is further than twice its weapon
      range, stated without square roots. */
  predicate Far(v: Vector, weaponRange: real) {
    2.0 * weaponRange < 0.0 || (2.0 * weaponRange) * (2.0 * weaponRange) < Dot(v, v)
  }

  /** The four-way rule of `choose_strategy`, in terms of the offset `v` to
      the enemy and the heading `d`: it raises when the angle cannot be
      measured; otherwise a far enemy is chased, a near one ahead (positive
      dot product with the heading) is chased, and a near one abeam or behind
      is evaded. */
  lemma StrategyRule(m: MathLib, s: Ship, e: Ship)
    requires Lawful(m)
    ensures var v, d := Sub(e.position, s.position), s.direction;
      var r := ChosenStrategy(m, s, Some(e));
      && (r.Err? <==> Dot(v, v) * Dot(d, d) < Epsilon * Epsilon)
      && (r == Ok(ChaseDistance) <==> r.Ok? && Far(v, e.weaponRange))
      && (r == Ok(ChaseAngle) <==> r.Ok? && !Far(v, e.weaponRange) && 0.0 < Dot(v, d))
      && (r == Ok(Evade) <==> r.Ok? && !Far(v, e.weaponRange) && Dot(v, d) <= 0.0)
  {
    var v, d := Sub(e.position, s.position), s.direction;
    AngleRange(m, v, d);
    MagnitudeCompare(m, v, 2.0 * e.weaponRange);
    if Angle(m, v, d).Ok? {
      AcuteIffPositiveDot(m, v, d);
    }
  }

  // ---------------------------------------------------------------------
  // Carrying out a strategy

  /** `implement_strategy`: the new heading, dispatched on the prefix of the
      strategy label.
      - patrol: hands the uncalled classmethod `Vector.random_direction` to
        `turn_towards`, whose subtraction raises TypeError;
      - chase: turns towards the offset to the enemy, which `turn_towards`
        then treats as a point;
      - evade: hands `turn_towards` whichever of `c` and `-c`, for
        `c = (enemy_position - position) x enemy_direction`, makes the strictly
        smaller angle with the heading (ties go to `-c`); as with chase, that
        direction is treated as a point, so the ship steers along `±c -
        position`; when `c` is within
        Epsilon of zero the resampling loop reads `enemy_direction.direction`,
        which a Vector lacks, and raises AttributeError;
      - anything else raises ValueError.
      A missing enemy position fails the subtraction (TypeError); a missing
      enemy direction fails `cross` (AttributeError). */
  function ImplementedDirection(m: MathLib, s: Ship, enemyPosition: Option<Vector>,
                                enemyDirection: Option<Vector>): (r: Result<Vector>)
  {
    if StartsWith(s.strategy, "patrol") then Err(TypeError)
    else if StartsWith(s.strategy, "chase") then
      if enemyPosition.None? then Err(TypeError)
      else TurnedDirection(m, s, Sub(enemyPosition.value, s.position))
    else if StartsWith(s.strategy, "evade") then
      if enemyPosition.None? then Err(TypeError)
      else if enemyDirection.None? then Err(AttributeError)
      else
        var candidate1 := Cross(Sub(enemyPosition.value, s.position), enemyDirection.value);
        if ApproxEq(candidate1, Zero()) then Err(AttributeError)
        else
          var candidate2 := Neg(candidate1);
          var angle1 :- AngleDegrees(m, candidate1, s.direction);
          var angle2 :- AngleDegrees(m, candidate2, s.direction);
          TurnedDirection(m, s, if angle1 < angle2 then candidate1 else candidate2)
    else Err(ValueError)
  }

  /** ValueError is raised exactly for a label with none of the three
      prefixes; the patrol branch always raises TypeError. */
  lemma Dispatch(m: MathLib, s: Ship, enemyPosition: Option<Vector>, enemyDirection: Option<Vector>)
    ensures var r := ImplementedDirection(m, s, enemyPosition, enemyDirection);
      && (r == Err(ValueError) <==>
            !StartsWith(s.strategy, "patrol") && !StartsWith(s.strategy, "chase") && !StartsWith(s.strategy, "evade"))
      && (StartsWith(s.strategy, "patrol") ==> r == Err(TypeError))
  {
  }

  /** Every label `choose_strategy` assigns is dispatched to a branch, so an
      implemented choice never raises ValueError. */
  lemma ChosenLabelsDispatch(m: MathLib, s: Ship, enemy: Option<Ship>,
                             enemyPosition: Option<Vector>, enemyDirection: Option<Vector>)
    requires ChosenStrategy(m, s, enemy).Ok?
    ensures ImplementedDirection(m, s.(strategy := ChosenStrategy(m, s, enemy).value), enemyPosition, enemyDirection)
      != Err(ValueError)
  {
    var chosen := ChosenStrategy(m, s, enemy).value;
    assert StartsWith(chosen, "patrol") || StartsWith(chosen, "chase") || StartsWith(chosen, "evade");
  }

  /** Chasing hands the offset to the enemy to `turn_towards`, which subtracts
      the position again: the ship steers along `enemy_position - 2 * position`,
      not along the offset to the enemy. */
  lemma ChaseAimsAtDoubledOffset(m: MathLib, s: Ship, p: Vector, enemyDirection: Option<Vector>)
    requires StartsWith(s.strategy, "chase")
    ensures ImplementedDirection(m, s, Some(p), enemyDirection)
      == TurnAlong(m, s, Sub(p, Scale(s.position, 2.0)))
  {
    PrefixesExclusive(s.strategy);
  }

  /** A ship whose enemy sits at twice its position, near and ahead of it,
      chooses to chase, and chasing then raises ZeroDivisionError: the doubled
      offset it steers along is the zero vector. */
  lemma ChaseStraightAheadRaises(m: MathLib, s: Ship, e: Ship)
    requires Lawful(m)
    requires UnitHeading(s)
    requires e.position == Scale(s.position, 2.0)
    requires Epsilon * Epsilon <= Dot(s.position, s.position)
    requires !Far(s.position, e.weaponRange) && 0.0 < Dot(s.position, s.direction)
    ensures ChosenStrategy(m, s, Some(e)) == Ok(ChaseAngle)
    ensures ImplementedDirection(m, s.(strategy := ChaseAngle), Some(e.position), Some(e.direction))
      == Err(ZeroDivisionError)
  {
    var v := Sub(e.position, s.position);
    assert v == s.position;
    assert !(Dot(v, v) * Dot(s.direction, s.direction) < Epsilon * Epsilon);
    StrategyRule(m, s, e);
    assert ChosenStrategy(m, s, Some(e)) == Ok(ChaseAngle);
    ChaseIntoZero(m, s.(strategy := ChaseAngle), e.position, e.direction);
  }

  /** Chasing an enemy placed at exactly twice the ship's position raises:
      the direction to steer along is the zero vector. */
  lemma ChaseIntoZero(m: MathLib, s: Ship, p: Vector, ed: Vector)
    requires Lawful(m)
    requires StartsWith(s.strategy, "chase")
    requires Sub(p, Scale(s.position, 2.0)) == Zero()
    ensures ImplementedDirection(m, s, Some(p), Some(ed)) == Err(ZeroDivisionError)
  {
    ChaseAimsAtDoubledOffset(m, s, p, Some(ed));
    AngleRange(m, s.direction, Zero());
  }

  /** Evading: both candidates are perpendicular to the offset to the enemy
      and to the enemy's heading. Once the angle to `c` can be measured, the
      choice of the strictly smaller angle is the choice of the candidate with
      a positive dot product with the heading, `-c` when `c` is abeam. */
  lemma EvadeChoice(m: MathLib, s: Ship, p: Vector, ed: Vector)
    requires Lawful(m)
    requires StartsWith(s.strategy, "evade")
    ensures var c := Cross(Sub(p, s.position), ed);
      var r := ImplementedDirection(m, s, Some(p), Some(ed));
      && Dot(Sub(p, s.position), c) == 0.0 && Dot(ed, c) == 0.0
      && (ApproxEq(c, Zero()) ==> r == Err(AttributeError))
      && (!ApproxEq(c, Zero()) && Angle(m, c, s.direction).Err? ==> r == Err(ZeroDivisionError))
      && (!ApproxEq(c, Zero()) && Angle(m, c, s.direction).Ok? ==>
            r == TurnedDirection(m, s, if 0.0 < Dot(c, s.direction) then c else Neg(c)))
  {
    var c := Cross(Sub(p, s.position), ed);
    CrossOrthogonal(Sub(p, s.position), ed);
    PrefixesExclusive(s.strategy);
    if !ApproxEq(c, Zero()) && Angle(m, c, s.direction).Ok? {
      NegationAngles(m, c, s.direction);
    }
  }

  /** Chasing or evading without the enemy's position raises TypeError;
      evading without its direction raises AttributeError. */
  lemma MissingEnemyArguments(m: MathLib, s: Ship, p: Vector, enemyDirection: Option<Vector>)
    requires !StartsWith(s.strategy, "patrol")
    requires StartsWith(s.strategy, "chase") || StartsWith(s.strategy, "evade")
    ensures ImplementedDirection(m, s, None, enemyDirection) == Err(TypeError)
    ensures !StartsWith(s.strategy, "chase") ==> ImplementedDirection(m, s, Some(p), None) == Err(AttributeError)
  {
  }

  // ---------------------------------------------------------------------
  // Weapons

  /** `is_in_weapon_range`: within range, and then within the weapon's cone;
      the angle is only measured once the range test has passed. */
  function IsInWeaponRange(m: MathLib, s: Ship, point: Vector): (r: Result<bool>)
    ensures Magnitude(m, Sub(point, s.position)) > s.weaponRange ==> r == Ok(false)
    ensures r.Err? ==> r.error == ZeroDivisionError
  {
    var toTarget := Sub(point, s.position);
    if !(Magnitude(m, toTarget) <= s.weaponRange) then Ok(false)
    else
      var angle :- AngleDegrees(m, s.direction, toTarget);
      Ok(angle <= s.weaponAngleDegrees)
  }

  /** `is_enemy_in_weapon_range`: false without an enemy. */
  function IsEnemyInWeaponRange(m: MathLib, s: Ship, enemy: Option<Ship>): (r: Result<bool>)
    ensures enemy.None? ==> r == Ok(false)
    ensures enemy.Some? && r.Ok? && r.value ==> Distance(m, s.position, enemy.value.position) <= s.weaponRange
  {
    if enemy.None? then Ok(false) else IsInWeaponRange(m, s, enemy.value.position)
  }

  /** The weapon cone, without square roots: a target at offset `v` is hit
      exactly when `|v|² <= range²` (for a non-negative range) and the angle
      from the heading is at most the cone angle; the test raises only for a
      target in range whose angle cannot be measured. */
  lemma WeaponCone(m: MathLib, s: Ship, point: Vector)
    requires Lawful(m)
    ensures var v, d := Sub(point, s.position), s.direction;
      var r := IsInWeaponRange(m, s, point);
      var inRange := 0.0 <= s.weaponRange && Dot(v, v) <= s.weaponRange * s.weaponRange;
      && (r == Ok(true) <==>
            inRange && AngleDegrees(m, d, v).Ok? && AngleDegrees(m, d, v).value <= s.weaponAngleDegrees)
      && (r.Err? <==> inRange && Dot(d, d) * Dot(v, v) < Epsilon * Epsilon)
  {
    var v, d := Sub(point, s.position), s.direction;
    MagnitudeCompare(m, v, s.weaponRange);
    AngleRange(m, d, v);
  }

  // ---------------------------------------------------------------------
  // Moving

  /** The state a ship reaches in a call, and the exception that call
      raises, if any (the fields it assigned before raising keep their new
      values). */
  datatype Step = Step(ship: Ship, error: Option<Error>)

  /** `move`: choose a strategy, carry it out, then advance the position by
      the normalized heading times the speed. */
  function Moved(m: MathLib, s: Ship, enemy: Option<Ship>, enemyPosition: Option<Vector>,
                 enemyDirection: Option<Vector>): (r: Step)
    ensures r.ship.speed == s.speed && r.ship.turningSpeed == s.turningSpeed
    ensures r.ship.weaponRange == s.weaponRange && r.ship.weaponAngleDegrees == s.weaponAngleDegrees
    ensures r.ship.name == s.name
    ensures ChosenStrategy(m, s, enemy).Err? ==> r == Step(s, Some(ChosenStrategy(m, s, enemy).error))
    ensures ChosenStrategy(m, s, enemy).Ok? ==> r.ship.strategy == ChosenStrategy(m, s, enemy).value
  {
    match ChosenStrategy(m, s, enemy)
    case Err(e) => Step(s, Some(e))
    case Ok(decision) =>
      var chosen := s.(strategy := decision);
      match ImplementedDirection(m, chosen, enemyPosition, enemyDirection)
      case Err(e) => Step(chosen, Some(e))
      case Ok(direction) =>
        var turned := chosen.(direction := direction);
        match Normalized(m, direction)
        case Err(e) => Step(turned, Some(e))
        case Ok(unit) => Step(turned.(position := Add(s.position, Scale(unit, s.speed))), None)
  }

  /** Heading `b` is at most `turningSpeed` degrees away from heading `a`. */
  predicate Turned(m: MathLib, a: Vector, b: Vector, turningSpeed: real) {
    AngleDegrees(m, a, b).Ok? && AngleDegrees(m, a, b).value <= turningSpeed
  }

  /** Keeping a unit heading is a turn within any non-negative turning speed. */
  lemma KeptHeadingIsTurned(m: MathLib, s: Ship)
    requires Lawful(m)
    requires UnitHeading(s)
    requires 0.0 <= s.turningSpeed
    ensures Turned(m, s.direction, s.direction, s.turningSpeed)
  {
    AngleRange(m, s.direction, s.direction);
    AngleSelfAndNeg(m, s.direction);
  }

  /** A move keeps the heading a unit vector and turns it by at most
      `turningSpeed` degrees, whether or not it raises. */
  lemma MovePreservesUnitHeading(m: MathLib, s: Ship, enemy: Option<Ship>, enemyPosition: Option<Vector>,
                                 enemyDirection: Option<Vector>)
    requires Lawful(m)
    requires UnitHeading(s)
    requires 0.0 <= s.turningSpeed
    ensures var r := Moved(m, s, enemy, enemyPosition, enemyDirection).ship;
      UnitHeading(r) && Turned(m, s.direction, r.direction, s.turningSpeed)
  {
    var decision := ChosenStrategy(m, s, enemy);
    KeptHeadingIsTurned(m, s);
    if decision.Ok? {
      var chosen := s.(strategy := decision.value);
      var r := ImplementedDirection(m, chosen, enemyPosition, enemyDirection);
      if r.Ok? {
        ImplementedIsTurn(m, chosen, enemyPosition, enemyDirection);
      }
    }
  }

  /** Every heading `implement_strategy` produces is a clamped turn towards
      some point: a unit vector at most `turningSpeed` degrees from the old
      heading. */
  lemma ImplementedIsTurn(m: MathLib, s: Ship, enemyPosition: Option<Vector>, enemyDirection: Option<Vector>)
    requires Lawful(m)
    requires UnitHeading(s)
    requires 0.0 <= s.turningSpeed
    requires ImplementedDirection(m, s, enemyPosition, enemyDirection).Ok?
    ensures var r := ImplementedDirection(m, s, enemyPosition, enemyDirection).value;
      Dot(r, r) == 1.0 && Turned(m, s.direction, r, s.turningSpeed)
  {
    var p := enemyPosition.value;
    if StartsWith(s.strategy, "chase") {
      TurnIsClamped(m, s, Sub(Sub(p, s.position), s.position));
    } else {
      var c := Cross(Sub(p, s.position), enemyDirection.value);
      var a1 := AngleDegrees(m, c, s.direction).value;
      var a2 := AngleDegrees(m, Neg(c), s.direction).value;
      TurnIsClamped(m, s, Sub(if a1 < a2 then c else Neg(c), s.position));
    }
  }

  /** A move that does not raise advances the position along the new unit
      heading by exactly `speed`; one that raises leaves the position alone. */
  lemma MoveAdvancesBySpeed(m: MathLib, s: Ship, enemy: Option<Ship>, enemyPosition: Option<Vector>,
                            enemyDirection: Option<Vector>)
    requires Lawful(m)
    requires UnitHeading(s)
    requires 0.0 <= s.turningSpeed
    ensures var r := Moved(m, s, enemy, enemyPosition, enemyDirection);
      && (r.error.Some? ==> r.ship.position == s.position)
      && (r.error.None? ==>
            && r.ship.position == Add(s.position, Scale(r.ship.direction, s.speed))
            && Distance(m, s.position, r.ship.position) == Abs(s.speed))
  {
    var r := Moved(m, s, enemy, enemyPosition, enemyDirection);
    MovePreservesUnitHeading(m, s, enemy, enemyPosition, enemyDirection);
    if r.error.None? {
      NormalizedOfUnit(m, r.ship.direction);
      AdvanceDistance(m, s.position, r.ship.direction, s.speed);
    }
  }

  // ---------------------------------------------------------------------
  // The mutable ship

  class Spaceship {
    var position: Vector
    var direction: Vector
    var speed: real
    var turningSpeed: real
    var weaponRange: real
    var weaponAngleDegrees: real
    var name: string
    var enemy: Spaceship?
    var strategy: string

    /** The ship's own fields as a value. */
    function State(): Ship
      reads this
    {
      Ship(position, direction, speed, turningSpeed, weaponRange, weaponAngleDegrees, name, strategy)
    }

    /** The enemy's fields as a value, if there is an enemy. */
    function EnemyState(): Option<Ship>
      reads this, enemy
    {
      if enemy == null then None else Some(enemy.State())
    }

    /** `Spaceship(...)` with the source's default arguments. */
    constructor (m: MathLib, position: Vector := Zero(), direction: Vector := PlusX(), speed: real := 1.0,
                 turningSpeed: real := 10.0, weaponRange: real := 50.0, weaponAngleDegrees: real := 15.0,
                 name: string := "", enemy: Spaceship? := null)
      requires Normalized(m, direction).Ok?
      ensures NewShip(m, position, direction, speed, turningSpeed, weaponRange, weaponAngleDegrees, name) == Ok(State())
      ensures this.enemy == enemy
    {
      this.position := position;
      this.direction := Normalized(m, direction).value;
      this.speed := speed;
      this.turningSpeed := turningSpeed;
      this.weaponRange := weaponRange;
      this.weaponAngleDegrees := weaponAngleDegrees;
      this.name := name;
      this.enemy := enemy;
      this.strategy := Patrol;
    }

    /** `turn_towards` */
    method TurnTowards(m: MathLib, point: Vector) returns (error: Option<Error>)
      modifies this
      ensures var r := TurnedDirection(m, old(State()), point);
        && error == ErrorOf(r)
        && State() == (if r.Ok? then old(State()).(direction := r.value) else old(State()))
      ensures enemy == old(enemy)
    {
      var desired := Sub(point, position);
      var angle := AngleDegrees(m, direction, desired);
      if angle.Err? {
        return Some(angle.error);
      }
      if angle.value <= turningSpeed {
        var unit := Normalized(m, desired);
        if unit.Err? {
          return Some(unit.error);
        }
        direction := unit.value;
      } else {
        var rotated := RotateTowardsDegrees(m, direction, desired, turningSpeed);
        if rotated.Err? {
          return Some(rotated.error);
        }
        direction := rotated.value;
      }
      return None;
    }

    /** `choose_strategy`; the enemy's position and direction passed in are
        ignored, as in the source. */
    method ChooseStrategy(m: MathLib, enemyPosition: Option<Vector> := None, enemyDirection: Option<Vector> := None)
      returns (error: Option<Error>)
      modifies this
      ensures var r := ChosenStrategy(m, old(State()), old(EnemyState()));
        && error == ErrorOf(r)
        && State() == (if r.Ok? then old(State()).(strategy := r.value) else old(State()))
      ensures enemy == old(enemy)
    {
      if enemy == null {
        strategy := Patrol;
        return None;
      }
      var toEnemy := Sub(enemy.position, position);
      var distance := Magnitude(m, toEnemy);
      var angle := AngleDegrees(m, toEnemy, direction);
      if angle.Err? {
        return Some(angle.error);
      }
      if distance > 2.0 * enemy.weaponRange {
        strategy := ChaseDistance;
      } else if angle.value < 90.0 {
        strategy := ChaseAngle;
      } else {
        strategy := Evade;
      }
      return None;
    }

    /** `implement_strategy` */
    method ImplementStrategy(m: MathLib, enemyPosition: Option<Vector> := None, enemyDirection: Option<Vector> := None)
      returns (error: Option<Error>)
      modifies this
      ensures var r := ImplementedDirection(m, old(State()), enemyPosition, enemyDirection);
        && error == ErrorOf(r)
        && State() == (if r.Ok? then old(State()).(direction := r.value) else old(State()))
      ensures enemy == old(enemy)
    {
      if StartsWith(strategy, "patrol") {
        error := Some(TypeError);
      } else if StartsWith(strategy, "chase") {
        if enemyPosition.None? {
          return Some(TypeError);
        }
        var toEnemy := Sub(enemyPosition.value, position);
        error := TurnTowards(m, toEnemy);
      } else if StartsWith(strategy, "evade") {
        if enemyPosition.None? {
          return Some(TypeError);
        }
        var toEnemy := Sub(enemyPosition.value, position);
        if enemyDirection.None? {
          return Some(AttributeError);
        }
        var candidate1 := Cross(toEnemy, enemyDirection.value);
        // The resampling loop raises on its first iteration: its body reads
        // `enemy_direction.direction`, an attribute a Vector does not have.
        if ApproxEq(candidate1, Zero()) {
          return Some(AttributeError);
        }
        var candidate2 := Neg(candidate1);
        var angle1 := AngleDegrees(m, candidate1, direction);
        if angle1.Err? {
          return Some(angle1.error);
        }
        var angle2 := AngleDegrees(m, candidate2, direction);
        if angle2.Err? {
          return Some(angle2.error);
        }
        if angle1.value < angle2.value {
          error := TurnTowards(m, candidate1);
        } else {
          error := TurnTowards(m, candidate2);
        }
      } else {
        error := Some(ValueError);
      }
    }

    /** `move` */
    method Move(m: MathLib, enemyPosition: Option<Vector> := None, enemyDirection: Option<Vector> := None)
      returns (error: Option<Error>)
      modifies this
      ensures var r := Moved(m, old(State()), old(EnemyState()), enemyPosition, enemyDirection);
        State() == r.ship && error == r.error
      ensures enemy == old(enemy)
    {
      error := ChooseStrategy(m, enemyPosition, enemyDirection);
      if error.Some? {
        return;
      }
      error := ImplementStrategy(m, enemyPosition, enemyDirection);
      if error.Some? {
        return;
      }
      var unit := Normalized(m, direction);
      if unit.Err? {
        return Some(unit.error);
      }
      position := Add(position, Scale(unit.value, speed));
    }
  }
}
