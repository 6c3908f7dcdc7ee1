/** Properties of the training model: how each variant's metrics relate to
    its readings, where swimming departs from the shared formulas, what the
    summary carries, and that the dispatcher rebuilds exactly the session
    whose readings it is given. */
module HomeworkProperties {
  import opened Homework

  // ---------------------------------------------------------------------
  // Distance and speed
  // ---------------------------------------------------------------------

  /** Running and walking share the default distance and speed; swimming
      keeps the default distance formula but with its own step length, so
      for the same action count its distance is the running one scaled by
      1.38 / 0.65, whatever the pool. */
  lemma DistanceSharedAcrossVariants(a: real, d: real, w: real, h: real, l: real, c: real)
    ensures Distance(Running(a, d, w)) == Distance(SportsWalking(a, d, w, h)) == a * LenStep / MInKm
    ensures Distance(Swimming(a, d, w, l, c)) * LenStep == Distance(Running(a, d, w)) * SwimLenStep
    ensures d != 0.0 ==> MeanSpeed(Running(a, d, w)) == MeanSpeed(SportsWalking(a, d, w, h))
  {
  }

  /** Swimming's mean speed is taken from the pool alone: changing the
      action count changes neither its speed nor its calories. */
  lemma SwimmingSpeedIgnoresAction(a1: real, a2: real, d: real, w: real, l: real, c: real)
    requires d != 0.0
    ensures MeanSpeed(Swimming(a1, d, w, l, c)) == MeanSpeed(Swimming(a2, d, w, l, c))
    ensures SpentCalories(Swimming(a1, d, w, l, c)) == SpentCalories(Swimming(a2, d, w, l, c))
  {
  }

  /** Swimming's distance is the inherited step formula: it depends on the
      action count only and changing the pool changes nothing. */
  lemma SwimmingDistanceIgnoresPool(a: real, d: real, w: real, l1: real, c1: real, l2: real, c2: real)
    ensures Distance(Swimming(a, d, w, l1, c1)) == Distance(Swimming(a, d, w, l2, c2))
    ensures Distance(Swimming(a, d, w, l1, c1)) * MInKm == a * SwimLenStep
  {
  }

  // ---------------------------------------------------------------------
  // Calories
  // ---------------------------------------------------------------------

  /** Every variant's calories are proportional to the weight: the speed
      does not depend on it and each formula multiplies by it once. */
  lemma CaloriesLinearInWeight(t: Training)
    requires Computable(t)
    ensures SpentCalories(t) == t.weight * SpentCalories(t.(weight := 1.0))
  {
    var u := t.(weight := 1.0);
    assert MeanSpeed(u) == MeanSpeed(t);
    var s := MeanSpeed(t);
    match t
    case Running(_, d, w) =>
      var k := RunSpeedMultiplier * s - RunSpeedShift;
      calc {
        SpentCalories(t);
        k * w / MInKm * d * MinInHour;
        w * (k * 1.0 / MInKm * d * MinInHour);
        w * SpentCalories(u);
      }
    case SportsWalking(_, d, w, h) =>
      var q := WalkSpeedTerm(s, h);
      calc {
        SpentCalories(t);
        (WalkWeightFactor * w + q * WalkSpeedHeightFactor * w) * d * MinInHour;
        w * ((WalkWeightFactor * 1.0 + q * WalkSpeedHeightFactor * 1.0) * d * MinInHour);
        w * SpentCalories(u);
      }
    case Swimming(_, _, w, _, _) =>
      calc {
        SpentCalories(t);
        (s + SwimSpeedShift) * SwimMultiplier * w;
        w * ((s + SwimSpeedShift) * SwimMultiplier * 1.0);
        w * SpentCalories(u);
      }
  }

  /** For a positive weight and duration, running burns a positive number of
      calories exactly when the mean speed exceeds 20/18 km/h, none at that
      speed, and a negative number below it. */
  lemma RunningCaloriesSign(t: Training)
    requires t.Running? && t.duration > 0.0 && t.weight > 0.0
    ensures SpentCalories(t) > 0.0 <==> MeanSpeed(t) > RunSpeedShift / RunSpeedMultiplier
    ensures SpentCalories(t) == 0.0 <==> MeanSpeed(t) == RunSpeedShift / RunSpeedMultiplier
  {
  }

  /** Walking's quotient term is a floor: while the squared speed stays below
      the (positive) height it is zero and the calories reduce to the weight
      term alone; from the height on it is at least one. */
  lemma WalkingFloorTerm(t: Training)
    requires t.SportsWalking? && t.duration != 0.0 && t.height > 0.0
    ensures MeanSpeed(t) * MeanSpeed(t) < t.height ==>
      SpentCalories(t) == WalkWeightFactor * t.weight * t.duration * MinInHour
    ensures MeanSpeed(t) * MeanSpeed(t) >= t.height ==>
      WalkSpeedTerm(MeanSpeed(t), t.height) >= 1.0
  {
    FloorTermBounds(MeanSpeed(t), t.height);
  }

  /** The floor of the squared speed over a positive height is zero below
      the height and at least one from it on. */
  lemma FloorTermBounds(s: real, h: real)
    requires h > 0.0
    ensures s * s < h ==> WalkSpeedTerm(s, h) == 0.0
    ensures s * s >= h ==> WalkSpeedTerm(s, h) >= 1.0
  {
    var q := WalkSpeedTerm(s, h);
    assert q <= s * s / h < q + 1.0;
    assert 0.0 <= s * s;
    if s * s < h {
      QuotientBelowOne(s * s, h);
      assert q.Floor == 0;
    } else {
      QuotientAtLeastOne(s * s, h);
      assert q.Floor >= 1;
    }
  }

  /** A non-negative number below a positive divisor has a quotient in [0, 1). */
  lemma QuotientBelowOne(x: real, h: real)
    requires 0.0 <= x < h
    ensures 0.0 <= x / h < 1.0
  {
  }

  /** A number at least as large as a positive divisor has a quotient of at least 1. */
  lemma QuotientAtLeastOne(x: real, h: real)
    requires 0.0 < h <= x
    ensures x / h >= 1.0
  {
  }

  // ---------------------------------------------------------------------
  // Summary
  // ---------------------------------------------------------------------

  /** The summary's speed and distance are consistent with its duration: for
      running and walking the speed times the duration is the distance; for
      swimming it is the pool length times the number of lengths, in km. */
  lemma SummaryConsistent(t: Training)
    requires Computable(t)
    ensures ShowTrainingInfo(t).Success?
    ensures var m := ShowTrainingInfo(t).value;
      !t.Swimming? ==> m.speed * m.duration == m.distance
    ensures var m := ShowTrainingInfo(t).value;
      t.Swimming? ==> m.speed * m.duration * MInKm == t.lengthPool * t.countPool
  {
  }

  // ---------------------------------------------------------------------
  // Dispatcher
  // ---------------------------------------------------------------------

  /** The dispatcher rebuilds every session from its code and its readings,
      and (with the postcondition of ReadPackage) nothing else yields it. */
  lemma ReadPackageRoundTrip(t: Training)
    ensures ReadPackage(Code(t), Readings(t)) == Success(t)
  {
  }

  /** Two reading lists that the dispatcher accepts for the same code give
      the same session only if they are equal: no reading is dropped. */
  lemma ReadPackageInjective(code: string, data1: seq<real>, data2: seq<real>)
    requires ReadPackage(code, data1).Success? && ReadPackage(code, data2).Success?
    requires ReadPackage(code, data1) == ReadPackage(code, data2)
    ensures data1 == data2
  {
  }

  // ---------------------------------------------------------------------
  // The three sample packages
  // ---------------------------------------------------------------------

  /** RUN [15000, 1, 75]: 9.75 km at 9.75 km/h, 699.75 kcal. */
  lemma RunningSample()
    ensures ReadPackage("RUN", [15000.0, 1.0, 75.0]) == Success(Running(15000.0, 1.0, 75.0))
    ensures ShowTrainingInfo(Running(15000.0, 1.0, 75.0))
      == Success(InfoMessage("Running", 1.0, 9.75, 9.75, 699.75))
  {
  }

  /** WLK [9000, 1, 75, 180]: 5.85 km at 5.85 km/h; 5.85 squared is below
      180, so the floor term vanishes and the calories are 157.5. */
  lemma WalkingSample()
    ensures ReadPackage("WLK", [9000.0, 1.0, 75.0, 180.0]) == Success(SportsWalking(9000.0, 1.0, 75.0, 180.0))
    ensures ShowTrainingInfo(SportsWalking(9000.0, 1.0, 75.0, 180.0))
      == Success(InfoMessage("SportsWalking", 1.0, 5.85, 5.85, 157.5))
  {
  }

  /** SWM [720, 1, 80, 25, 40]: the inherited distance is 0.9936 km while the
      pool speed is 1.0 km/h, so the speed is not distance over duration;
      the calories are 336. */
  lemma SwimmingSample()
    ensures ReadPackage("SWM", [720.0, 1.0, 80.0, 25.0, 40.0]) == Success(Swimming(720.0, 1.0, 80.0, 25.0, 40.0))
    ensures ShowTrainingInfo(Swimming(720.0, 1.0, 80.0, 25.0, 40.0))
      == Success(InfoMessage("Swimming", 1.0, 0.9936, 1.0, 336.0))
    ensures var swim := Swimming(720.0, 1.0, 80.0, 25.0, 40.0);
      MeanSpeed(swim) * swim.duration != Distance(swim)
  {
  }
}
