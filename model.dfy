// Reference model of the game state of the "Magic Click" mana generator:
// the four generators, the per-second mana accrual, the rotation that grows
// each generator's multiplier, and the purchase triggered by a click on a
// generator's corner panel. Every float64 of the program is an exact `real`.

module GameModel {

  datatype Option<T> = None | Some(value: T)

  /** A screen position in pixels, as delivered by a mouse click. */
  datatype Point = Point(x: int, y: int)

  const ScreenWidth: int := 1920
  const ScreenHeight: int := 1080

  /** Size of the clickable panel in each corner. */
  const ZoneWidth: int := 370
  const ZoneHeight: int := 130

  const TicksPerSecond: int := 60
  const MaxLevel: int := 100
  const MultiplierIncrement: real := 0.01

  /** math.Pi as float64(math.Pi) prints; only 2 * Pi, one full turn, is used. */
  const Pi: real := 3.141592653589793
  const TwoPi: real := 2.0 * Pi

  /** Cost growth per purchase, by generator index: the first grows slower. */
  const ScalingFactors: seq<real> := [1.15, 1.2, 1.2, 1.2]

  datatype Generator = Generator(
    name: string,
    cost: real,
    speedPerLevel: real,   // revolutions per second contributed by each level
    level: int,
    description: string,
    timer: int,            // never read or written after construction
    manaMultiplier: real)

  /** Everything of the game that the simulation reads or writes. */
  datatype State = State(
    mana: real,
    manaPerSec: int,        // hundredths of the aggregate multiplier
    generators: seq<Generator>,
    tickCounter: int,
    angles: seq<real>,      // rotation angle of each generator, in radians
    totalMultiplier: real)  // cached product of the generators' multipliers

  function InitialGenerators(): seq<Generator>
  {
    [ Generator("Mana Crystal", 3.0, 0.1, 5, "Basic mana generation crystal", 0, 1.0),
      Generator("Arcane Tower", 50.0, 0.08, 0, "Mystical mana channeling tower", 0, 1.0),
      Generator("Ley Line Node", 250.0, 0.05, 0, "Powerful magical energy nexus", 0, 1.0),
      Generator("Elder Artifact", 1000.0, 0.02, 0, "Ancient relic of immense power", 0, 1.0) ]
  }

  /** Four generators, one rotation angle per generator. */
  predicate WellFormed(s: State)
  {
    |s.generators| == 4 && |s.angles| == 4
  }

  /** Product of the multipliers, multiplied left to right starting from 1. */
  function MultiplierProduct(gs: seq<Generator>): (r: real)
    ensures (forall k :: 0 <= k < |gs| ==> gs[k].manaMultiplier >= 1.0) ==> r >= 1.0
  {
    if gs == [] then 1.0
    else MultiplierProduct(gs[..|gs| - 1]) * gs[|gs| - 1].manaMultiplier
  }

  /**
   * The multiplier in hundredths, rounded half up: x * 100 + 0.5 converted to
   * a 64-bit integer, a conversion that truncates toward zero.
   */
  function Hundredths(x: real): (r: int)
    ensures x * 100.0 + 0.5 >= 0.0 ==> r as real <= x * 100.0 + 0.5 < r as real + 1.0
    ensures x * 100.0 + 0.5 >= 0.0 ==> r as real - 0.5 <= x * 100.0 < r as real + 0.5
  {
    var v := x * 100.0 + 0.5;
    if v >= 0.0 then v.Floor else -((-v).Floor)
  }

  /** The cache refresh: aggregate multiplier and mana per second from the generators. */
  function Recompute(s: State): State
  {
    var total := MultiplierProduct(s.generators);
    s.(totalMultiplier := total, manaPerSec := Hundredths(total))
  }

  /** The state right after start-up, before the first tick. */
  function Initial(): State
  {
    Recompute(State(0.0, 0, InitialGenerators(), 0, [0.0, 0.0, 0.0, 0.0], 0.0))
  }

  /** Top-left corner of generator i's panel: top-left, top-right, bottom-left, bottom-right. */
  function ZoneOrigin(i: nat): Point
    requires i < 4
  {
    match i
    case 0 => Point(30, 120)
    case 1 => Point(ScreenWidth - 400, 120)
    case 2 => Point(30, ScreenHeight - 200)
    case 3 => Point(ScreenWidth - 400, ScreenHeight - 200)
  }

  /** The click (x, y) lands on generator i's panel; both edges are inclusive. */
  predicate InZone(i: nat, x: int, y: int)
    requires i < 4
  {
    var o := ZoneOrigin(i);
    o.x <= x <= o.x + ZoneWidth && o.y <= y <= o.y + ZoneHeight
  }

  /** The first panel at index from or later that contains (x, y). */
  function HitFrom(x: int, y: int, from: nat): (r: Option<nat>)
    requires from <= 4
    ensures r.None? <==> forall k :: from <= k < 4 ==> !InZone(k, x, y)
    ensures r.Some? ==> from <= r.value < 4 && InZone(r.value, x, y)
    ensures r.Some? ==> forall k :: from <= k < r.value ==> !InZone(k, x, y)
    decreases 4 - from
  {
    if from == 4 then None
    else if InZone(from, x, y) then Some(from)
    else HitFrom(x, y, from + 1)
  }

  /** The generator whose panel a click at (x, y) selects, if any. */
  function Hit(x: int, y: int): Option<nat>
  {
    HitFrom(x, y, 0)
  }

  /**
   * Buying one level of generator i: refused silently unless the mana covers
   * the cost and the level is below the cap; otherwise pay, level up,
   * refresh the cache, then scale the cost.
   */
  function Purchase(s: State, i: nat): State
    requires WellFormed(s) && i < 4
  {
    var g := s.generators[i];
    if s.mana >= g.cost && g.level < MaxLevel then
      var paid := Recompute(s.(mana := s.mana - g.cost,
                               generators := s.generators[i := g.(level := g.level + 1)]));
      var bought := paid.generators[i];
      paid.(generators := paid.generators[i := bought.(cost := bought.cost * ScalingFactors[i])])
    else
      s
  }

  /** A click buys from the generator whose panel it hits, if any. */
  function Click(s: State, p: Point): State
    requires WellFormed(s)
  {
    match Hit(p.x, p.y)
    case None => s
    case Some(i) => Purchase(s, i)
  }

  /** The tick counter; every 60th tick refreshes the cache and credits the multiplier. */
  function Accrue(s: State): State
  {
    var ticks := s.tickCounter + 1;
    if ticks >= TicksPerSecond then
      var r := Recompute(s);
      r.(mana := if r.totalMultiplier > 0.0 then r.mana + r.totalMultiplier else r.mana,
         tickCounter := 0)
    else
      s.(tickCounter := ticks)
  }

  /** Radians a generator turns in one tick: level * speedPerLevel turns per second. */
  function RotationSpeed(g: Generator): real
  {
    g.speedPerLevel * g.level as real * 2.0 * Pi / 60.0
  }

  /**
   * One tick of one generator's rotation: a generator of level 0 stands still;
   * otherwise crossing a full turn adds one increment to its multiplier (once,
   * however far it went) and the angle is brought back by one full turn.
   */
  function Turn(g: Generator, angle: real): (Generator, real)
  {
    if g.level > 0 then
      var moved := angle + RotationSpeed(g);
      var g' := if angle < TwoPi && moved >= TwoPi
                then g.(manaMultiplier := g.manaMultiplier + MultiplierIncrement)
                else g;
      (g', if moved >= TwoPi then moved - TwoPi else moved)
    else
      (g, angle)
  }

  /** Every generator turns, independently of the others. */
  function Rotate(s: State): State
    requires |s.angles| == |s.generators|
  {
    var n := |s.generators|;
    s.(generators := seq(n, k requires 0 <= k < n => Turn(s.generators[k], s.angles[k]).0),
       angles := seq(n, k requires 0 <= k < n => Turn(s.generators[k], s.angles[k]).1))
  }

  /** One tick of the game: the click first, then accrual, then rotation. */
  function Step(s: State, click: Option<Point>): (r: State)
    requires WellFormed(s)
    ensures WellFormed(r)
  {
    var clicked := match click
                   case None => s
                   case Some(p) => Click(s, p);
    Rotate(Accrue(clicked))
  }

  /** n ticks without any click. */
  function Run(s: State, n: nat): (r: State)
    requires WellFormed(s)
    ensures WellFormed(r)
  {
    if n == 0 then s else Step(Run(s, n - 1), None)
  }
}
