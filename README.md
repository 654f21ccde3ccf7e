# spaceship-sim in Dafny

This project models the core of `spaceship-sim`, a small two-ship dogfight
simulator. The core has three parts:

- `Vector` is an immutable 3-D vector. It supports arithmetic, dot and cross
  products, magnitude, angles, normalization and rotation towards another
  vector.
- `Spaceship` has a position, a unit heading, a speed and a turning speed, and
  a weapon cone given by a range and an angle. On every `move` it picks a
  strategy against its enemy (chase on distance, chase on angle, or evade),
  turns towards the resulting direction by at most its turning speed, and
  advances by its speed.
- `Simulation` sets two ships against each other. At most `ticks` times it
  records a `Data` row (which ship has the other in its weapon cone, both
  states, the distance and the angles) and moves both ships. It stops at the
  first decisive row.

Modules:

- `Vectors` (`vectors.dfy`) models `vector.py` as pure functions over a
  `Vector` datatype.
- `Spaceships` (`spaceships.dfy`) models `spaceship.py` in two layers:
  - a value `Ship` with specification functions for every method
    (`NewShip`, `TurnedDirection`, `ChosenStrategy`, `ImplementedDirection`,
    `IsInWeaponRange`, `Moved`, …);
  - a class `Spaceship` whose methods update its fields in place. Each method
    is proved against the matching function.
- `Simulations` (`simulations.dfy`) models `simulation.py`:
  - `TickFrom` is one pass of the loop in `Simulation.__init__`. `RunFrom` is
    the whole run.
  - `RunWith` is the same run over any tick function. The run lemmas are
    proved for every tick function that meets the per-tick guarantees, and
    `TickOfTicks` shows that `TickFrom` meets them.
  - The class `Simulation` runs the loop in place on two `Spaceship` objects.
    `PlayTick` is the loop body, and the constructor is proved to produce
    exactly `RunFrom`.

Python exceptions are values of `Error`, carried in a `Result`. The mutating
methods return the exception they would raise as an `Option<Error>`, and keep
whatever fields they assigned before raising. The `Simulation` constructor
stores the escaping exception in its `raised` field.

`math.sqrt`, `math.acos`, `math.cos` and `math.sin` are function values in a
`MathLib` parameter. The lemmas that need their behaviour require
`Lawful(m)`, which states:

- `sqrt` gives the non-negative root;
- `acos` maps `[-1, 1]` into `[0, π]` and is strictly decreasing there;
- `acos(1) = 0`, `acos(0) = π/2` and `acos(-1) = π`;
- `acos(cos t) = t` for `t` in `[0, π]`;
- `cos² + sin² = 1`.

`math.pi`, the tolerance `epsilon = 1e-9`, `math.degrees` and `math.radians`
are written out exactly.

The model follows the code where it differs from what the names and
docstrings suggest:

- `normalized` raises only for the exact zero vector, because it divides by a
  magnitude of exactly `0.0`. It does not raise for magnitudes below
  `epsilon`.
- `rotate_towards` keeps the length of `self` for every angle only when
  `self` is a unit vector, which is the only way `turn_towards` uses it.
- Vector `==` is approximate, but `!=` is exact, so both can hold for the same
  pair (`EqAndNeBothHold`).
- The patrol strategy always raises. It passes the uncalled classmethod
  `Vector.random_direction` as a point.
- The chase strategy steers along `enemy_position - 2 * position`, not along
  the offset to the enemy. It hands the offset to `turn_towards`, which
  treats it as a point and subtracts the position again.
- The evade strategy also hands a direction (`c` or `-c`) to `turn_towards`
  as a point, so it steers along `±c - position`.
- The resampling loop of evade raises `AttributeError` on its first pass.
  This assumes Python 3.11 or 3.12. Before 3.11, `random.gauss()` needs
  arguments and raises TypeError first. From 3.13 on, `@classmethod` no
  longer wraps `@property`, so `Vector.zero` and `Vector.plus_x` are not
  vectors: the evade test `candidate_1 == Vector.zero` fails inside
  `__eq__`, and `Spaceship()`'s default position and direction are not
  vectors.

## Model

| member | source | states |
|---|---|---|
| Vectors.Neg | vector.py:31-36 | the negation cancels the vector: `a + (-a)` is the zero vector |
| Vectors.NegInvolutive | vector.py:31-36 | negating twice gives the vector back |
| Vectors.AddCommutative | vector.py:38-43 | vector addition is commutative |
| Vectors.AddZeroIdentity | vector.py:38-43 | the zero vector is a left and right identity of addition |
| Vectors.Sub | vector.py:45-50 | subtraction undoes addition: `(a - b) + b == a` |
| Vectors.SubIsAddNeg | vector.py:45-50 | `a - b == a + (-b)`, and each component of `a - b` is the difference of the components |
| Vectors.ComponentWise | vector.py:31-57 | negation, addition and scaling act component by component on the iterated components |
| Vectors.Div | vector.py:62-63 | division raises ZeroDivisionError exactly when the divisor is zero |
| Vectors.DivUndoneByScale | vector.py:59-63 | multiplying a quotient by the (non-zero) divisor gives the vector back |
| Vectors.ApproxEqReflexive | vector.py:65-70 | approximate equality is reflexive |
| Vectors.ApproxEqSymmetric | vector.py:65-70 | approximate equality is symmetric |
| Vectors.ApproxEqNotTransitive | vector.py:65-70 | approximate equality is not transitive: three concrete vectors chain within epsilon while the ends differ by more |
| Vectors.NotEq | vector.py:72-77 | `!=` holds exactly when the two vectors are not identical |
| Vectors.NotEqIsExact | vector.py:65-77 | when `!=` is false, `==` is true |
| Vectors.EqAndNeBothHold | vector.py:65-77 | two vectors exist for which both `==` and `!=` are true |
| Vectors.Components | vector.py:80-83 | iteration yields exactly three components |
| Vectors.IterationOrder | vector.py:80-87 | iteration yields x, y, z in that order; `v[0]`, `v[1]`, `v[2]`, `v[-1]` select x, y, z, z; `v[3]` raises IndexError |
| Vectors.IndexFromEnd | vector.py:86-87 | exactly the integer indexes in `[-3, 3)` succeed; `v[i - 3]` is `v[i]`, the i-th iterated component, for every `i` in `[0, 3)` |
| Vectors.DotSymmetric | vector.py:90-96 | the dot product is symmetric |
| Vectors.DotSelfNonNegative | vector.py:90-96 | `a·a` is non-negative, and zero only for the zero vector |
| Vectors.DotScale | vector.py:90-96 | the dot product is homogeneous in each argument |
| Vectors.DotLinear | vector.py:90-96 | the dot product is linear in its second argument |
| Vectors.CrossAntiCommutative | vector.py:98-104 | `a × b == -(b × a)`, both exactly and under the approximate `==` |
| Vectors.CrossOrthogonal | vector.py:98-104 | the cross product is orthogonal to both factors |
| Vectors.MagnitudeFacts | vector.py:106-112 | the magnitude is non-negative, squares to `a·a`, and is zero only for the zero vector |
| Vectors.MagnitudeScale | vector.py:106-112 | scaling by `k >= 0` scales the magnitude by `k` |
| Vectors.MagnitudeCompare | vector.py:106-112 | `|a| <= bound` exactly when the bound is non-negative and `a·a <= bound²` |
| Vectors.UnitMagnitude | vector.py:106-112 | a vector with `a·a == 1` has magnitude 1 |
| Vectors.PlusXIsUnit | vector.py:170-180 | `plus_x` has magnitude 1 and `zero` magnitude 0 |
| Vectors.DistanceSymmetric | vector.py:114-115 | distance is symmetric |
| Vectors.AdvanceDistance | vector.py:114-115 | moving a point by `k` times a unit vector puts it at distance `|k|` |
| Vectors.Clamp | vector.py:123-127 | the clamped cosine lies in `[-1, 1]` and is the point of that interval nearest the raw cosine |
| Vectors.Angle | vector.py:117-128 | `angle` raises only ZeroDivisionError |
| Vectors.AngleOf | vector.py:119-128 | the angle computation raises exactly when the magnitude product is below epsilon |
| Vectors.AngleRange | vector.py:117-131 | the angle raises exactly when `(a·a)(b·b) < epsilon²`; otherwise it lies in `[0, π]`, which is `[0, 180]` in degrees |
| Vectors.AngleSymmetric | vector.py:117-131 | the angle between two vectors does not depend on their order |
| Vectors.AngleSelfAndNeg | vector.py:117-128 | a measurable vector is at angle 0 from itself and π from its negation |
| Vectors.AngleScaleInvariant | vector.py:117-128 | scaling one argument by a positive factor leaves the angle unchanged |
| Vectors.Radians | vector.py:157-160 | converting to radians and back to degrees gives the same angle |
| Vectors.AngleDegrees | vector.py:130-131 | `angle_degrees` raises exactly when `angle` does, and is `angle` converted to degrees |
| Vectors.AcuteIffPositiveDot | vector.py:117-131 | the angle is below 90 degrees exactly when the dot product is positive |
| Vectors.NegationAngles | vector.py:117-131 | `c` makes a smaller angle with `b` than `-c` does exactly when `c·b > 0` |
| Vectors.NormalizedIsUnit | vector.py:162-165 | `normalized` raises exactly for the zero vector; otherwise it returns a unit vector which, scaled by the magnitude, gives the vector back |
| Vectors.NormalizedOfUnit | vector.py:162-165 | normalizing a unit vector returns it unchanged |
| Vectors.RotateTowardsFails | vector.py:133-145 | rotation raises exactly when the axis `(a × b) × a` is zero, that is when `a` and `b` are parallel or either is zero |
| Vectors.RotateTowardsIsExact | vector.py:133-145 | rotating a unit vector by an angle in `[0, π]` gives a unit vector at exactly that angle from it |
| Spaceships.PrefixesExclusive | spaceship.py:101-108 | the labels dispatched on (`patrol`, `chase`, `evade`) are mutually exclusive prefixes |
| Spaceships.NewShip | spaceship.py:28-37 | construction raises only ZeroDivisionError and starts the ship patrolling |
| Spaceships.NewShipFacts | spaceship.py:28-37 | construction raises exactly for a zero direction; otherwise the stored heading is a unit vector along the given direction |
| Spaceships.DefaultShip | spaceship.py:6-37 | a default ship sits at the origin heading along +x with speed 1, turning speed 10, range 50 and cone 15 degrees |
| Spaceships.TurnedDirection | spaceship.py:42-52 | `turn_towards` raises only ZeroDivisionError |
| Spaceships.TurnAlong | spaceship.py:45-52 | the turn raises only ZeroDivisionError |
| Spaceships.TurnIsClamped | spaceship.py:42-52 | for a unit heading and a non-negative turning speed: the new heading is a unit vector at most `turning_speed` degrees away; it is exactly the desired direction when that is within reach, and exactly `turning_speed` degrees away otherwise; the turn raises exactly for a desired offset too short to measure, or for one out of reach and parallel to the heading |
| Spaceships.VectorToEnemy | spaceship.py:60-64 | there is an offset exactly when there is an enemy, and position plus offset is the enemy's position |
| Spaceships.DirectionToEnemy | spaceship.py:66-70 | there is a direction exactly when there is an enemy |
| Spaceships.DirectionToEnemyIsUnit | spaceship.py:66-70 | the direction to the enemy raises exactly when both ships share a position; otherwise it is a unit vector that, scaled by the distance, is the offset to the enemy |
| Spaceships.DistanceToEnemyFacts | spaceship.py:72-75 | both ships measure the same distance to each other; it is non-negative, and zero exactly when they share a position |
| Spaceships.AngleToEnemyDegree | spaceship.py:54-58 | the angle is absent exactly when there is no enemy, and it raises only ZeroDivisionError |
| Spaceships.ChosenStrategy | spaceship.py:77-93 | without an enemy the ship patrols; every label chosen is one of the four strategy labels; the choice raises only ZeroDivisionError |
| Spaceships.StrategyRule | spaceship.py:77-93 | against an enemy the choice raises exactly when the angle cannot be measured; otherwise it is chase-by-distance exactly when the enemy is beyond twice its weapon range, chase-by-angle exactly when it is nearer and ahead (positive dot product), and evade exactly when it is nearer and abeam or behind |
| Spaceships.Dispatch | spaceship.py:95-130 | ValueError is raised exactly for a label without any of the three prefixes; the patrol branch always raises TypeError |
| Spaceships.ChosenLabelsDispatch | spaceship.py:77-130 | a strategy chosen by `choose_strategy` never makes `implement_strategy` raise ValueError |
| Spaceships.ChaseAimsAtDoubledOffset | spaceship.py:104-107 | chasing turns along `enemy_position - 2 * position` |
| Spaceships.ChaseIntoZero | spaceship.py:104-107 | chasing an enemy at exactly twice the ship's position raises ZeroDivisionError |
| Spaceships.ChaseStraightAheadRaises | spaceship.py:77-107 | a ship whose near enemy sits at twice its position, ahead of it, chooses chase-by-angle and then raises ZeroDivisionError carrying it out |
| Spaceships.EvadeChoice | spaceship.py:108-128 | the evade candidate `c` is orthogonal to the offset and to the enemy's heading; a near-zero `c` raises AttributeError; an unmeasurable angle raises ZeroDivisionError; otherwise the ship turns towards `c` when `c` is ahead (positive dot product) and towards `-c` otherwise |
| Spaceships.MissingEnemyArguments | spaceship.py:104-119 | chasing or evading without an enemy position raises TypeError; evading without an enemy direction raises AttributeError |
| Spaceships.IsInWeaponRange | spaceship.py:137-144 | a point beyond the weapon range is not hit, and the test raises only ZeroDivisionError |
| Spaceships.WeaponCone | spaceship.py:137-144 | a point is hit exactly when it is within range (`|v|² <= range²`, range non-negative) and at most the cone angle off the heading; the test raises exactly for a point in range whose angle cannot be measured |
| Spaceships.IsEnemyInWeaponRange | spaceship.py:132-135 | no enemy means no hit, and a hit enemy is within the weapon range |
| Spaceships.Moved | spaceship.py:146-156 | a move never changes speed, turning speed, weapon range, cone or name; a failed strategy choice leaves the ship unchanged; otherwise the chosen strategy is stored |
| Spaceships.ImplementedIsTurn | spaceship.py:95-130 | every heading `implement_strategy` produces for a unit-heading ship is a unit vector at most `turning_speed` degrees from the old heading |
| Spaceships.KeptHeadingIsTurned | spaceship.py:146-156 | a move that leaves a unit heading unchanged is within any non-negative turning speed |
| Spaceships.MovePreservesUnitHeading | spaceship.py:146-156 | a move keeps the heading a unit vector and turns it by at most `turning_speed` degrees, whether or not it raises |
| Spaceships.MoveAdvancesBySpeed | spaceship.py:146-156 | a move that raises leaves the position alone; one that does not advances it along the new heading by exactly `speed`, a distance of `|speed|` |
| Spaceships.Spaceship.constructor | spaceship.py:6-37 | the new object's state is the ship `NewShip` builds, and the given enemy is stored |
| Spaceships.Spaceship.TurnTowards | spaceship.py:42-52 | the heading becomes `TurnedDirection` of the old state, or stays and the error is returned; the enemy link is kept |
| Spaceships.Spaceship.ChooseStrategy | spaceship.py:77-93 | the strategy becomes `ChosenStrategy` of the old state and the enemy's current state, or the error is returned |
| Spaceships.Spaceship.ImplementStrategy | spaceship.py:95-130 | the heading becomes `ImplementedDirection` of the old state, or the error is returned |
| Spaceships.Spaceship.Move | spaceship.py:146-156 | the new state and error are exactly those of `Moved` from the old state and the enemy's current state |
| Simulations.Classify | simulation.py:80-87 | both-destroyed, ship-1-wins, ship-2-wins and ongoing each occur for exactly their combination of the two hit tests |
| Simulations.Outcome | simulation.py:77-87 | the outcome raises only ZeroDivisionError, is one of the four labels, and is ongoing exactly when neither ship has the other in its cone |
| Simulations.MakeRecord | simulation.py:89-118 | a row is built unless an angle to the enemy raises (ZeroDivisionError); it carries the index and result, both ships' strategies, positions and headings, their flattened components, the distance between the ships, and each ship's angle to the other |
| Simulations.Record | simulation.py:77-118 | a row fails (with ZeroDivisionError) exactly when the outcome or either angle to the enemy fails; a row built carries the index, both states, the outcome, the distance and both angles |
| Simulations.TickFrom | simulation.py:77-137 | one tick yields at most one row; it continues only with no error and an ongoing row; it stops cleanly exactly after a decisive row; the ships move only after an ongoing row, so a tick that raises before recording its row, or records a decisive one, leaves both ships unchanged; no tick alters a ship's speed, turning speed, range, cone or name |
| Simulations.TickOrder | simulation.py:124-137 | in a continuing tick ship 1 moves first; ship 2 chooses its strategy against ship 1's moved state but steers by ship 1's position and heading from before the move |
| Simulations.TickMoves | simulation.py:124-137 | with unit headings and non-negative turning speeds, a tick keeps both headings unit and turns each by at most its turning speed, and a continuing tick moves each ship by its speed along its new heading |
| Simulations.TickOfTicks | simulation.py:76-137 | `TickFrom` meets the per-tick guarantees the run lemmas assume |
| Simulations.RunIndexes | simulation.py:76-119 | the rows carry consecutive indexes from the first tick; there are no rows when no ticks remain, and at most one per tick otherwise |
| Simulations.RunStopsAtDecisive | simulation.py:119-122 | every row but the last is ongoing; a run that raised has only ongoing rows; a run that ends early without error ends with a decisive row, and a decisive last row means no error |
| Simulations.RunRecordsFlattened | simulation.py:89-119 | every row's flattened components match its vectors, and the first row shows the starting ships |
| Simulations.RunKeepsFrames | simulation.py:121-137 | a run never changes either ship's speed, turning speed, range, cone or name, and a decisive last row shows the final ships |
| Simulations.RunKeepsUnitHeadings | simulation.py:124-137 | starting from unit headings and non-negative turning speeds, the final headings and every recorded heading are unit vectors |
| Simulations.RunAdvancesBySpeed | simulation.py:124-137 | between consecutive rows each ship turns by at most its turning speed and moves along its recorded heading by its speed, covering a distance of `|speed|` |
| Simulations.SimulationRecords | simulation.py:76-122 | a whole simulation records nothing for `ticks <= 0` and at most `ticks` rows; row `i` has index `i` and consistent flattened components; all rows but the last are ongoing; an early end without error is decisive |
| Simulations.SimulationMoves | simulation.py:76-137 | over a whole simulation headings stay unit, and between consecutive rows each ship turns by at most its turning speed and advances by exactly its speed |
| Simulations.Simulation.constructor | simulation.py:42-137 | the ships are linked as mutual enemies, the initial settings record both starting states, and the rows, the escaping exception and the final ship states are exactly those of `RunFrom` over `ticks` ticks |
| Simulations.Simulation.PlayTick | simulation.py:77-137 | one pass of the loop appends the tick's rows, moves both ships to the tick's states, keeps the enemy links and settings, and continues exactly when `TickFrom` does |

## Left out

- `run_sims.py`, `Simulation.summary`, `Simulation.to_csv`, `Vector.__str__`, and the `__main__` blocks of the three files are left out. They only print, write files or drive batches of runs.
- `Vector.random_direction` and `random.gauss` are left out because randomness is not modelled. The patrol branch raises TypeError before drawing anything. Evade's resampling raises AttributeError after one draw, whose value is never used (on Python 3.11 or 3.12, as assumed throughout).
- The `functools.cache` decorators are left out: caching does not change any result.
- The model uses exact real arithmetic instead of IEEE floating point, so rounding and overflow are not modelled. Where the code compares against `epsilon`, the comparison is modelled exactly.
- `math.sqrt`, `math.acos`, `math.cos` and `math.sin` are parameters, constrained only by the facts in `Lawful`.
- `Vector.__getitem__` with a slice is left out; only integer indexes are modelled.
- Behaviour on Python 3.13 and later is left out. There `Vector.zero` and `Vector.plus_x` are not vectors, so evade and the default `Spaceship()` fail differently. The model follows Python 3.11 and 3.12.
- The duplicate definition of `Vector.zero` is modelled once: both definitions return the same vector.
- `Spaceships.Spaceship.constructor` requires a non-zero direction. The source raises ZeroDivisionError from `__init__` for the zero vector, and `NewShip` models that error path.
- `Simulations.Simulation.constructor` requires two distinct ship objects. A simulation of a ship against itself (aliasing) is not modelled.
- `Simulations.Simulation.constructor` models `initial_settings` as a map from the ship keys to a `Settings` record, not as nested dictionaries keyed by strings.
- The turning and movement lemmas (`Spaceships.TurnIsClamped`, `Spaceships.ImplementedIsTurn`, `Spaceships.MovePreservesUnitHeading`, `Spaceships.MoveAdvancesBySpeed`, `Simulations.TickMoves`, `Simulations.RunKeepsUnitHeadings`, `Simulations.RunAdvancesBySpeed`, `Simulations.SimulationMoves`) assume a non-negative turning speed. The source does not check this. With a negative turning speed every turn rotates, and the clamp has no meaning.
- `Spaceship.__str__`/`__repr__` and the dataclass-generated members of `Data` are left out.
