// What the game promises about its state: the guarded purchase, the
// disjoint click panels, the once-per-second accrual, the rotation that only
// ever raises multipliers, and the invariant every tick preserves.

module GameProperties {
  import opened GameModel

  // ---------------------------------------------------------------------
  // The state invariant
  // ---------------------------------------------------------------------

  /**
   * Generator k keeps its fixed identity and speed, its level stays within
   * [0, 100], its cost never falls below the starting cost, its multiplier
   * never falls below 1 and its angle stays within one turn.
   */
  ghost predicate GeneratorInv(k: nat, g: Generator, angle: real)
    requires k < 4
  {
    var g0 := InitialGenerators()[k];
    g.name == g0.name && g.description == g0.description &&
    g.speedPerLevel == g0.speedPerLevel && g.timer == g0.timer &&
    0 <= g.level <= MaxLevel &&
    g.cost >= g0.cost &&
    g.manaMultiplier >= 1.0 &&
    0.0 <= angle < TwoPi
  }

  /**
   * The invariant of every reachable state. The cached aggregate is refreshed
   * only once per second and on purchases, so between refreshes it may lag
   * behind the product of the multipliers, never exceed it.
   */
  ghost predicate Inv(s: State)
  {
    WellFormed(s) &&
    (forall k :: 0 <= k < 4 ==> GeneratorInv(k, s.generators[k], s.angles[k])) &&
    0 <= s.tickCounter < TicksPerSecond &&
    s.mana >= 0.0 &&
    1.0 <= s.totalMultiplier <= MultiplierProduct(s.generators) &&
    s.manaPerSec == Hundredths(s.totalMultiplier)
  }

  // ---------------------------------------------------------------------
  // The aggregate multiplier
  // ---------------------------------------------------------------------

  /** Raising any multiplier (all of them at least 1) never lowers the product. */
  lemma {:induction false} ProductMonotone(a: seq<Generator>, b: seq<Generator>)
    requires |a| == |b|
    requires forall k :: 0 <= k < |a| ==> 1.0 <= a[k].manaMultiplier <= b[k].manaMultiplier
    ensures 1.0 <= MultiplierProduct(a) <= MultiplierProduct(b)
  {
    if a != [] {
      var n := |a| - 1;
      ProductMonotone(a[..n], b[..n]);
      var pa, pb := MultiplierProduct(a[..n]), MultiplierProduct(b[..n]);
      var ma, mb := a[n].manaMultiplier, b[n].manaMultiplier;
      calc {
        MultiplierProduct(a);
      ==
        pa * ma;
      <= { assert (pb - pa) * ma >= 0.0; }
        pb * ma;
      <= { assert pb * (mb - ma) >= 0.0; }
        pb * mb;
      ==
        MultiplierProduct(b);
      }
    } else {
      assert b == [];
    }
  }

  /** The product depends on the multipliers alone, not on costs, levels or names. */
  lemma {:induction false} ProductOfMultipliersOnly(a: seq<Generator>, b: seq<Generator>)
    requires |a| == |b|
    requires forall k :: 0 <= k < |a| ==> a[k].manaMultiplier == b[k].manaMultiplier
    ensures MultiplierProduct(a) == MultiplierProduct(b)
  {
    if a != [] {
      ProductOfMultipliersOnly(a[..|a| - 1], b[..|b| - 1]);
    }
  }

  /** When every multiplier but the first is 1, the product is the first multiplier. */
  lemma {:induction false} ProductOfFirstOnly(gs: seq<Generator>)
    requires gs != []
    requires forall k :: 1 <= k < |gs| ==> gs[k].manaMultiplier == 1.0
    ensures MultiplierProduct(gs) == gs[0].manaMultiplier
  {
    if |gs| == 1 {
      assert gs[..0] == [];
    } else {
      ProductOfFirstOnly(gs[..|gs| - 1]);
    }
  }

  /** For the non-negative values the game rounds, the hundredths are floor(100 x + 0.5). */
  lemma HundredthsRoundsHalfUp(x: real)
    requires x >= 0.0
    ensures Hundredths(x) == (x * 100.0 + 0.5).Floor
    ensures Hundredths(x) >= 0
  {
  }

  // ---------------------------------------------------------------------
  // Start-up
  // ---------------------------------------------------------------------

  /** The game starts with levels 5, 0, 0, 0, all multipliers 1 and the cache consistent. */
  lemma InitialState()
    ensures Inv(Initial())
    ensures var s := Initial();
      s.mana == 0.0 && s.tickCounter == 0 &&
      s.generators[0].level == 5 && s.generators[1].level == 0 &&
      s.generators[2].level == 0 && s.generators[3].level == 0 &&
      s.totalMultiplier == MultiplierProduct(s.generators) == 1.0 &&
      s.manaPerSec == 100
  {
    ProductOfFirstOnly(InitialGenerators());
  }

  // ---------------------------------------------------------------------
  // Clicks and purchases
  // ---------------------------------------------------------------------

  /** No point lies on two panels. */
  lemma ZonesDisjoint(i: nat, j: nat, x: int, y: int)
    requires i < 4 && j < 4 && i != j
    ensures !(InZone(i, x, y) && InZone(j, x, y))
  {
  }

  /** A click selects generator i exactly when it lies on i's panel. */
  lemma HitIsZone(x: int, y: int, i: nat)
    requires i < 4
    ensures Hit(x, y) == Some(i) <==> InZone(i, x, y)
  {
    if InZone(i, x, y) {
      var r := Hit(x, y);
      if r != Some(i) {
        ZonesDisjoint(r.value, i, x, y);
      }
    }
  }

  /**
   * A purchase happens only when the mana covers the cost and the level is
   * below 100; otherwise nothing changes. When it happens, the price is paid,
   * the level rises by one, the cost grows by the generator's factor, the
   * cache is refreshed and no other generator, angle or counter moves.
   */
  lemma PurchaseOutcome(s: State, i: nat)
    requires WellFormed(s) && i < 4
    ensures var g, t := s.generators[i], Purchase(s, i);
      if s.mana >= g.cost && g.level < MaxLevel then
        t.mana == s.mana - g.cost &&
        t.generators[i] == g.(level := g.level + 1, cost := g.cost * ScalingFactors[i]) &&
        (forall j :: 0 <= j < 4 && j != i ==> t.generators[j] == s.generators[j]) &&
        t.angles == s.angles && t.tickCounter == s.tickCounter &&
        t.totalMultiplier == MultiplierProduct(t.generators) &&
        t.manaPerSec == Hundredths(t.totalMultiplier)
      else
        t == s
  {
    var g := s.generators[i];
    if s.mana >= g.cost && g.level < MaxLevel {
      var t := Purchase(s, i);
      ProductOfMultipliersOnly(s.generators[i := g.(level := g.level + 1)], t.generators);
    }
  }

  /**
   * One click changes at most one generator: the one whose panel it hits,
   * by at most one level. A click outside every panel changes nothing.
   */
  lemma ClickTouchesAtMostOne(s: State, p: Point)
    requires WellFormed(s)
    ensures Hit(p.x, p.y).None? ==> Click(s, p) == s
    ensures forall j :: 0 <= j < 4 && Hit(p.x, p.y) != Some(j) ==>
      Click(s, p).generators[j] == s.generators[j]
    ensures forall j :: 0 <= j < 4 ==>
      s.generators[j].level <= Click(s, p).generators[j].level <= s.generators[j].level + 1
    ensures Click(s, p).angles == s.angles && Click(s, p).tickCounter == s.tickCounter
  {
    match Hit(p.x, p.y)
    case None =>
    case Some(i) => PurchaseOutcome(s, i);
  }

  /** Purchases keep the invariant: mana stays non-negative, levels capped, costs growing. */
  lemma {:induction false} PurchasePreservesInv(s: State, i: nat)
    requires Inv(s) && i < 4
    ensures Inv(Purchase(s, i))
  {
    var g := s.generators[i];
    if s.mana >= g.cost && g.level < MaxLevel {
      var t := Purchase(s, i);
      PurchaseOutcome(s, i);
      assert ScalingFactors[i] >= 1.15;
      assert g.cost > 0.0 by { assert GeneratorInv(i, g, s.angles[i]); }
      assert t.generators[i].cost >= g.cost;
      assert forall k :: 0 <= k < 4 ==> GeneratorInv(k, t.generators[k], t.angles[k]) by {
        forall k | 0 <= k < 4 ensures GeneratorInv(k, t.generators[k], t.angles[k]) {
          assert GeneratorInv(k, s.generators[k], s.angles[k]);
        }
      }
    }
  }

  lemma ClickPreservesInv(s: State, p: Point)
    requires Inv(s)
    ensures Inv(Click(s, p))
  {
    match Hit(p.x, p.y)
    case None =>
    case Some(i) => PurchasePreservesInv(s, i);
  }

  /** A worked purchase: 3 mana buys level 6 of the first generator, whose cost becomes 3.45. */
  lemma FirstPurchase()
    ensures var t := Purchase(Initial().(mana := 3.0), 0);
      t.mana == 0.0 && t.generators[0].level == 6 && t.generators[0].cost == 3.45
  {
    InitialState();
    PurchaseOutcome(Initial().(mana := 3.0), 0);
  }

  // ---------------------------------------------------------------------
  // Accrual
  // ---------------------------------------------------------------------

  /**
   * The tick counter stays within [0, 59]; mana grows, by the freshly
   * computed product of the multipliers, exactly on the tick that brings the
   * counter to 60, and is untouched on every other tick.
   */
  lemma AccrueOnceASecond(s: State)
    requires 0 <= s.tickCounter < TicksPerSecond
    requires forall k :: 0 <= k < |s.generators| ==> s.generators[k].manaMultiplier >= 1.0
    ensures var t := Accrue(s);
      t.tickCounter == (s.tickCounter + 1) % TicksPerSecond &&
      t.mana == s.mana + (if s.tickCounter == TicksPerSecond - 1 then MultiplierProduct(s.generators) else 0.0) &&
      t.generators == s.generators && t.angles == s.angles
    ensures s.tickCounter == TicksPerSecond - 1 ==>
      Accrue(s).totalMultiplier == MultiplierProduct(s.generators) &&
      Accrue(s).manaPerSec == Hundredths(Accrue(s).totalMultiplier)
    ensures s.tickCounter != TicksPerSecond - 1 ==>
      Accrue(s).totalMultiplier == s.totalMultiplier &&
      Accrue(s).manaPerSec == s.manaPerSec
  {
  }

  lemma AccruePreservesInv(s: State)
    requires Inv(s)
    ensures Inv(Accrue(s))
  {
    AccrueOnceASecond(s);
  }

  // ---------------------------------------------------------------------
  // Rotation
  // ---------------------------------------------------------------------

  /** At most a sixth of a turn per tick: speed at most 0.1, level at most 100. */
  lemma {:induction false} RotationBelowOneTurn(k: nat, g: Generator, angle: real)
    requires k < 4 && GeneratorInv(k, g, angle)
    ensures 0.0 <= RotationSpeed(g) <= TwoPi / 6.0
  {
    var v := g.speedPerLevel;
    var l := g.level as real;
    assert 0.0 <= v <= 0.1 by {
      assert v == InitialGenerators()[k].speedPerLevel;
    }
    assert v * l <= 0.1 * l by { assert (0.1 - v) * l >= 0.0; }
  }

  /**
   * One tick of one generator: with the angle within one turn and a step of
   * less than a turn, a generator of level 0 is unchanged; otherwise its
   * multiplier gains exactly 0.01 when the angle crossed a full turn and
   * nothing otherwise, a crossing shows as the angle wrapping to a smaller
   * value, and the angle ends within one turn.
   */
  lemma TurnEffect(g: Generator, angle: real)
    requires 0.0 <= angle < TwoPi
    requires 0.0 <= RotationSpeed(g) < TwoPi
    ensures var (g', angle') := Turn(g, angle);
      var crossed := g.level > 0 && angle + RotationSpeed(g) >= TwoPi;
      0.0 <= angle' < TwoPi &&
      g' == g.(manaMultiplier := g'.manaMultiplier) &&
      g'.manaMultiplier == g.manaMultiplier + (if crossed then MultiplierIncrement else 0.0) &&
      (g.level == 0 ==> angle' == angle) &&
      (g.level > 0 && RotationSpeed(g) > 0.0 ==> (crossed <==> angle' < angle))
  {
  }

  lemma {:induction false} RotatePreservesInv(s: State)
    requires Inv(s)
    ensures Inv(Rotate(s))
    ensures forall k :: 0 <= k < 4 ==>
      Rotate(s).generators[k] == s.generators[k].(manaMultiplier := Rotate(s).generators[k].manaMultiplier) &&
      (Rotate(s).generators[k].manaMultiplier == s.generators[k].manaMultiplier ||
       Rotate(s).generators[k].manaMultiplier == s.generators[k].manaMultiplier + MultiplierIncrement)
  {
    var t := Rotate(s);
    forall k | 0 <= k < 4
      ensures GeneratorInv(k, t.generators[k], t.angles[k])
      ensures t.generators[k] == s.generators[k].(manaMultiplier := t.generators[k].manaMultiplier)
      ensures t.generators[k].manaMultiplier == s.generators[k].manaMultiplier ||
              t.generators[k].manaMultiplier == s.generators[k].manaMultiplier + MultiplierIncrement
    {
      assert GeneratorInv(k, s.generators[k], s.angles[k]);
      RotationBelowOneTurn(k, s.generators[k], s.angles[k]);
      TurnEffect(s.generators[k], s.angles[k]);
    }
    ProductMonotone(s.generators, t.generators);
  }

  // ---------------------------------------------------------------------
  // Whole ticks
  // ---------------------------------------------------------------------

  /** Every tick keeps the invariant. */
  lemma StepPreservesInv(s: State, click: Option<Point>)
    requires Inv(s)
    ensures Inv(Step(s, click))
  {
    var clicked := match click
                   case None => s
                   case Some(p) => Click(s, p);
    if click.Some? {
      ClickPreservesInv(s, click.value);
    }
    AccruePreservesInv(clicked);
    RotatePreservesInv(Accrue(clicked));
  }

  /** A click never lowers a level or a cost, and leaves the multipliers alone. */
  lemma ClickMonotone(s: State, p: Point)
    requires Inv(s)
    ensures forall k :: 0 <= k < 4 ==>
      s.generators[k].level <= Click(s, p).generators[k].level &&
      s.generators[k].cost <= Click(s, p).generators[k].cost &&
      s.generators[k].manaMultiplier == Click(s, p).generators[k].manaMultiplier
  {
    match Hit(p.x, p.y)
    case None =>
    case Some(i) =>
      PurchaseOutcome(s, i);
      assert GeneratorInv(i, s.generators[i], s.angles[i]);
  }

  /** No tick lowers a level, a cost or a multiplier. */
  lemma StepMonotone(s: State, click: Option<Point>)
    requires Inv(s)
    ensures forall k :: 0 <= k < 4 ==>
      s.generators[k].level <= Step(s, click).generators[k].level &&
      s.generators[k].cost <= Step(s, click).generators[k].cost &&
      s.generators[k].manaMultiplier <= Step(s, click).generators[k].manaMultiplier
  {
    var clicked := match click
                   case None => s
                   case Some(p) => Click(s, p);
    if click.Some? {
      ClickPreservesInv(s, click.value);
      ClickMonotone(s, click.value);
    }
    AccruePreservesInv(clicked);
    RotatePreservesInv(Accrue(clicked));
    assert Accrue(clicked).generators == clicked.generators;
  }

  // ---------------------------------------------------------------------
  // Runs from start-up without clicks
  // ---------------------------------------------------------------------

  /**
   * The state n ticks after start-up when nobody clicks: only the first
   * generator turns, a 120th of a turn per tick, so its angle is
   * (n mod 120) / 120 of a turn and its multiplier has gained 0.01 per
   * completed revolution; the counter is n mod 60; no mana before the first
   * second, exactly one unit during the second.
   */
  ghost predicate AfterTicks(s: State, n: nat)
  {
    s.tickCounter == n % 60 &&
    s.angles == [FirstAngle(n), 0.0, 0.0, 0.0] &&
    s.generators == [FirstGenerator(n)] + InitialGenerators()[1..] &&
    (n < 60 ==> s.mana == 0.0) &&
    (60 <= n < 120 ==> s.mana == 1.0)
  }

  /** Angle of the first generator after n ticks: a 120th of a turn per tick. */
  ghost function FirstAngle(n: nat): real
  {
    (n % 120) as real * (Pi / 60.0)
  }

  /** The first generator after n ticks: 0.01 more multiplier per completed revolution. */
  ghost function FirstGenerator(n: nat): Generator
  {
    InitialGenerators()[0].(manaMultiplier := 1.0 + MultiplierIncrement * (n / 120) as real)
  }

  /** The first generator's tick: a revolution completes on every 120th tick. */
  lemma TurnFirst(n: nat)
    ensures Turn(FirstGenerator(n), FirstAngle(n)) == (FirstGenerator(n + 1), FirstAngle(n + 1))
  {
    assert RotationSpeed(FirstGenerator(n)) == Pi / 60.0;
    if n % 120 == 119 {
      assert (n + 1) % 120 == 0 && (n + 1) / 120 == n / 120 + 1;
    } else {
      assert (n + 1) % 120 == n % 120 + 1 && (n + 1) / 120 == n / 120;
    }
  }

  /** The accrual part of a tick in the closed form. */
  lemma AccrueAfterTicks(s: State, n: nat)
    requires AfterTicks(s, n)
    ensures var a := Accrue(s);
      a.generators == s.generators && a.angles == s.angles &&
      a.tickCounter == (n + 1) % 60 &&
      (n + 1 < 60 ==> a.mana == 0.0) &&
      (60 <= n + 1 < 120 ==> a.mana == 1.0)
  {
    if n + 1 == 60 {
      ProductOfFirstOnly(s.generators);
    }
  }

  /** A tick without a click moves the closed form from n to n + 1. */
  lemma StepAfterTicks(s: State, n: nat)
    requires AfterTicks(s, n)
    ensures WellFormed(s) && AfterTicks(Step(s, None), n + 1)
  {
    AccrueAfterTicks(s, n);
    var a := Accrue(s);
    TurnFirst(n);
    var t := Rotate(a);
    assert t.generators[0] == FirstGenerator(n + 1) && t.angles[0] == FirstAngle(n + 1);
    assert t.generators == [FirstGenerator(n + 1)] + InitialGenerators()[1..];
    assert t.angles == [FirstAngle(n + 1), 0.0, 0.0, 0.0];
  }

  /** Left alone from start-up, the game follows the closed form tick by tick. */
  lemma {:induction false} RunFromInitial(n: nat)
    ensures AfterTicks(Run(Initial(), n), n)
  {
    if n == 0 {
      InitialState();
    } else {
      RunFromInitial(n - 1);
      StepAfterTicks(Run(Initial(), n - 1), n - 1);
    }
  }

  /** From start-up, 60 ticks credit exactly one mana and reset the counter. */
  // The tick count is a parameter fixed by the requires: with a literal
  // argument Dafny would unfold Run once per tick.
  lemma OneSecondCreditsOneMana(n: nat)
    requires n == 60
    ensures Run(Initial(), n).mana == 1.0 && Run(Initial(), n).tickCounter == 0
  {
    RunFromInitial(n);
  }

  /** From start-up, 1200 ticks are ten revolutions of the first generator: +0.10. */
  // The tick count is a parameter fixed by the requires: with a literal
  // argument Dafny would unfold Run once per tick.
  lemma TenRevolutionsIn1200Ticks(n: nat)
    requires n == 1200
    ensures Run(Initial(), n).generators[0].manaMultiplier == 1.1
  {
    RunFromInitial(n);
    assert n / 120 == 10;
  }

  /** Tick 120 from the closed form: the cache is rebuilt to 1.0, then the multiplier rises. */
  lemma RevolutionAtSecondEnd(s: State)
    requires AfterTicks(s, 119)
    ensures WellFormed(s)
    ensures Step(s, None).totalMultiplier == 1.0
    ensures MultiplierProduct(Step(s, None).generators) == 1.01
  {
    ProductOfFirstOnly(s.generators);
    StepAfterTicks(s, 119);
    ProductOfFirstOnly(Step(s, None).generators);
  }

  /**
   * The cached aggregate lags behind the multipliers: on tick 120 the second
   * completes before the first revolution does, so the cache is refreshed
   * to 1.0 and the multiplier then rises to 1.01.
   */
  // The tick count is a parameter fixed by the requires: with a literal
  // argument Dafny would unfold Run once per tick.
  lemma StaleCacheAfterRevolution(n: nat)
    requires n == 120
    ensures Run(Initial(), n).totalMultiplier == 1.0
    ensures MultiplierProduct(Run(Initial(), n).generators) == 1.01
  {
    RunFromInitial(n - 1);
    RevolutionAtSecondEnd(Run(Initial(), n - 1));
  }
}
