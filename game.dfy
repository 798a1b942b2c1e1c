// The game object as the program keeps it: one mutable record whose
// generators and rotation angles are fixed-size arrays updated in place.
// Every method is proved to move the state exactly as the reference
// functions of GameModel say.

module GameImpl {
  import opened GameModel
  import opened GameProperties

  class Game {
    var mana: real
    var manaPerSec: int
    const generators: array<Generator>
    var tickCounter: int
    const rotationAngles: array<real>
    var totalMultiplier: real

    /** Four generators, one rotation angle per generator. */
    ghost predicate Valid()
      reads this
    {
      generators.Length == 4 && rotationAngles.Length == 4
    }

    /** The abstract value of the object. */
    ghost function Model(): State
      reads this, generators, rotationAngles
    {
      State(mana, manaPerSec, generators[..], tickCounter, rotationAngles[..], totalMultiplier)
    }

    /** Start-up: the four fixed generators, all angles 0, and the cache computed once. */
    constructor ()
      ensures Valid() && fresh(generators) && fresh(rotationAngles)
      ensures Model() == Initial() && Inv(Model())
    {
      mana := 0.0;
      manaPerSec := 0;
      generators := new Generator[4](k requires 0 <= k < 4 => InitialGenerators()[k]);
      tickCounter := 0;
      rotationAngles := new real[4](_ => 0.0);
      totalMultiplier := 0.0;
      new;
      assert generators[..] == InitialGenerators();
      assert rotationAngles[..] == [0.0, 0.0, 0.0, 0.0];
      CalculateManaPerSec();
      InitialState();
    }

    /** Rebuilds the cached product of the multipliers and the hundredths derived from it. */
    method CalculateManaPerSec()
      modifies this`totalMultiplier, this`manaPerSec
      ensures totalMultiplier == MultiplierProduct(generators[..])
      ensures manaPerSec == Hundredths(totalMultiplier)
      ensures Model() == Recompute(old(Model()))
    {
      totalMultiplier := 1.0;
      var i := 0;
      while i < generators.Length
        invariant 0 <= i <= generators.Length
        invariant totalMultiplier == MultiplierProduct(generators[..i])
      {
        assert generators[..i + 1][..i] == generators[..i];
        totalMultiplier := totalMultiplier * generators[i].manaMultiplier;
        i := i + 1;
      }
      assert generators[..i] == generators[..];
      manaPerSec := Hundredths(totalMultiplier);
    }

    /** A click at (x, y): buys from the first panel that contains it, if any. */
    method HandleGeneratorClicks(x: int, y: int)
      requires Valid()
      modifies this`mana, this`totalMultiplier, this`manaPerSec, generators
      ensures Valid()
      ensures Inv(old(Model())) ==> Inv(Model())
      ensures Model() == Click(old(Model()), Point(x, y))
    {
      var i := 0;
      while i < generators.Length
        invariant 0 <= i <= 4
        invariant Hit(x, y) == HitFrom(x, y, i)
        invariant Model() == old(Model())
      {
        if InZone(i, x, y) {
          ghost var before := Model();
          if mana >= generators[i].cost {
            if generators[i].level < MaxLevel {
              mana := mana - generators[i].cost;
              generators[i] := generators[i].(level := generators[i].level + 1);
              CalculateManaPerSec();
              var scalingFactor := ScalingFactors[i];
              generators[i] := generators[i].(cost := generators[i].cost * scalingFactor);
            }
          }
          assert Model() == Purchase(before, i);
          if Inv(old(Model())) {
            ClickPreservesInv(old(Model()), Point(x, y));
          }
          return;
        }
        i := i + 1;
      }
    }

    /** One tick: the click (if there was one this tick), accrual, then rotation. */
    method Update(click: Option<Point>)
      requires Valid()
      modifies this, generators, rotationAngles
      ensures Valid()
      ensures Inv(old(Model())) ==> Inv(Model())
      ensures Model() == Step(old(Model()), click)
    {
      if Inv(Model()) {
        StepPreservesInv(Model(), click);
      }
      if click.Some? {
        HandleGeneratorClicks(click.value.x, click.value.y);
      }

      tickCounter := tickCounter + 1;
      if tickCounter >= TicksPerSecond {
        CalculateManaPerSec();
        if totalMultiplier > 0.0 {
          mana := mana + totalMultiplier;
        }
        tickCounter := 0;
      }

      RotateGenerators();
    }

    /** The rotation part of a tick, generator by generator. */
    method RotateGenerators()
      requires generators.Length == rotationAngles.Length
      modifies generators, rotationAngles
      ensures Model() == Rotate(old(Model()))
    {
      ghost var accrued := Model();
      var i := 0;
      while i < generators.Length
        invariant 0 <= i <= generators.Length
        invariant forall k :: 0 <= k < i ==>
          (generators[k], rotationAngles[k]) == Turn(accrued.generators[k], accrued.angles[k])
        invariant forall k :: i <= k < generators.Length ==>
          generators[k] == accrued.generators[k] && rotationAngles[k] == accrued.angles[k]
      {
        ghost var turned := Turn(generators[i], rotationAngles[i]);
        if generators[i].level > 0 {
          var totalSpeed := generators[i].speedPerLevel * generators[i].level as real;
          var rotationSpeed := totalSpeed * 2.0 * Pi / 60.0;
          assert rotationSpeed == RotationSpeed(generators[i]);
          var oldAngle := rotationAngles[i];
          rotationAngles[i] := rotationAngles[i] + rotationSpeed;
          if oldAngle < TwoPi && rotationAngles[i] >= TwoPi {
            generators[i] := generators[i].(manaMultiplier := generators[i].manaMultiplier + MultiplierIncrement);
          }
          if rotationAngles[i] >= TwoPi {
            rotationAngles[i] := rotationAngles[i] - TwoPi;
          }
        }
        assert (generators[i], rotationAngles[i]) == turned;
        i := i + 1;
      }
      assert generators[..] == Rotate(accrued).generators;
      assert rotationAngles[..] == Rotate(accrued).angles;
    }
  }
}
