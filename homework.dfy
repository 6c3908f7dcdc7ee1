/** A model of a fitness tracker's calculation core: three kinds of training
    (running, sports walking, swimming) built from raw sensor readings, each
    giving a distance in km, a mean speed in km/h and the calories spent, and
    a summary message bundling them.

    Quantities are exact reals; the one discrete operation of the
    formulas, the floor division in the walking formula, is written out with
    `.Floor`. */
module Homework {

  // ---------------------------------------------------------------------
  // Constants
  // ---------------------------------------------------------------------

  /** Length of one step in metres, shared by running and walking. */
  const LenStep: real := 0.65
  /** Swimming overrides the step length (one stroke, in metres). */
  const SwimLenStep: real := 1.38
  /** Metres in a kilometre. */
  const MInKm: real := 1000.0
  /** Minutes in an hour, used by the running and walking formulas. */
  const MinInHour: real := 60.0

  /** Running: calories = (RunSpeedMultiplier * speed - RunSpeedShift) * weight / MInKm * duration * MinInHour. */
  const RunSpeedMultiplier: real := 18.0
  const RunSpeedShift: real := 20.0

  /** Walking: calories = (WalkWeightFactor * weight + (speed squared // height) * WalkSpeedHeightFactor * weight) * duration * MinInHour. */
  const WalkWeightFactor: real := 0.035
  const WalkSpeedHeightFactor: real := 0.029

  /** Swimming: calories = (speed + SwimSpeedShift) * SwimMultiplier * weight. */
  const SwimSpeedShift: real := 1.1
  const SwimMultiplier: real := 2.0

  // ---------------------------------------------------------------------
  // Data model
  // ---------------------------------------------------------------------

  /** One training session. The base record holds the action count (steps
      or strokes), the duration in hours and the weight in kg; the walking
      variant adds the height and the swimming variant the pool length in
      metres and the number of pool lengths swum. The base class is never
      built by the dispatcher, so it is not a case here. */
  datatype Training =
    | Running(action: real, duration: real, weight: real)
    | SportsWalking(action: real, duration: real, weight: real, height: real)
    | Swimming(action: real, duration: real, weight: real, lengthPool: real, countPool: real)

  /** The summary of one session: the variant's class name and its four metrics. */
  datatype InfoMessage = InfoMessage(
    trainingType: string,
    duration: real,
    distance: real,
    speed: real,
    calories: real)

  /** The exceptions the core can raise. */
  datatype Error =
    | UnknownWorkoutType(code: string)             // dict lookup of an unknown code (KeyError)
    | WrongArgumentCount(expected: nat, given: nat) // constructor called with too few or too many readings (TypeError)
    | ZeroDivision                                  // division by a zero duration or height (ZeroDivisionError)

  datatype Result<T> = Success(value: T) | Failure(error: Error)

  // ---------------------------------------------------------------------
  // Distance and speed
  // ---------------------------------------------------------------------

  /** The step length the variant's class declares. */
  function StepLength(t: Training): (r: real)
    ensures r > 0.0
    ensures t.Swimming? <==> r != LenStep
  {
    if t.Swimming? then SwimLenStep else LenStep
  }

  /** Distance in km. No variant overrides it, so swimming uses the same
      formula with its own step length and ignores the pool entirely. */
  function Distance(t: Training): (r: real)
    ensures r * MInKm == t.action * StepLength(t)
    ensures t.action >= 0.0 ==> r >= 0.0
    ensures r == 0.0 <==> t.action == 0.0
  {
    t.action * StepLength(t) / MInKm
  }

  /** Mean speed in km/h: the distance per hour for running and walking, and
      the pool length times the number of lengths, in km, per hour for
      swimming. Python raises ZeroDivisionError for a zero duration. */
  function MeanSpeed(t: Training): (r: real)
    requires t.duration != 0.0
    ensures !t.Swimming? ==> r * t.duration == Distance(t)
    ensures t.Swimming? ==> r * t.duration * MInKm == t.lengthPool * t.countPool
  {
    match t
    case Swimming(_, duration, _, lengthPool, countPool) =>
      lengthPool * countPool / MInKm / duration
    case _ =>
      Distance(t) / t.duration
  }

  // ---------------------------------------------------------------------
  // Calories
  // ---------------------------------------------------------------------

  /** The quotient term of the walking formula: Python's float floor division
      of the squared speed by the height. */
  function WalkSpeedTerm(speed: real, height: real): (r: real)
    requires height != 0.0
    ensures r <= speed * speed / height < r + 1.0
    ensures r == r.Floor as real
  {
    (speed * speed / height).Floor as real
  }

  /** A variant's metrics are defined whenever its divisions are: by the
      duration for all three, and by the height for walking. */
  predicate Computable(t: Training)
  {
    t.duration != 0.0 && (t.SportsWalking? ==> t.height != 0.0)
  }

  /** Calories spent, by the variant's own formula. */
  function SpentCalories(t: Training): (r: real)
    requires Computable(t)
    ensures t.weight == 0.0 ==> r == 0.0
  {
    match t
    case Running(_, duration, weight) =>
      (RunSpeedMultiplier * MeanSpeed(t) - RunSpeedShift) * weight / MInKm * duration * MinInHour
    case SportsWalking(_, duration, weight, height) =>
      (WalkWeightFactor * weight + WalkSpeedTerm(MeanSpeed(t), height) * WalkSpeedHeightFactor * weight)
        * duration * MinInHour
    case Swimming(_, _, weight, _, _) =>
      (MeanSpeed(t) + SwimSpeedShift) * SwimMultiplier * weight
  }

  // ---------------------------------------------------------------------
  // Summary
  // ---------------------------------------------------------------------

  /** The name of the variant's class, used as the summary's label. */
  function ClassName(t: Training): (r: string)
    ensures r in {"Running", "SportsWalking", "Swimming"}
    ensures t.Running? <==> r == "Running"
    ensures t.SportsWalking? <==> r == "SportsWalking"
  {
    match t
    case Running(_, _, _) => "Running"
    case SportsWalking(_, _, _, _) => "SportsWalking"
    case Swimming(_, _, _, _, _) => "Swimming"
  }

  /** Builds the summary of a session. The metrics are computed in the
      source's order (distance, speed, calories); the speed fails on a zero
      duration and the walking calories on a zero height. */
  function ShowTrainingInfo(t: Training): (r: Result<InfoMessage>)
    ensures r.Success? <==> Computable(t)
    ensures r.Failure? ==> r.error == ZeroDivision
    ensures r.Success? ==>
      && r.value.trainingType == ClassName(t)
      && r.value.duration == t.duration
      && r.value.distance == Distance(t)
      && r.value.speed == MeanSpeed(t)
      && r.value.calories == SpentCalories(t)
  {
    if t.duration == 0.0 then Failure(ZeroDivision)
    else if t.SportsWalking? && t.height == 0.0 then Failure(ZeroDivision)
    else Success(InfoMessage(ClassName(t), t.duration, Distance(t), MeanSpeed(t), SpentCalories(t)))
  }

  // ---------------------------------------------------------------------
  // Dispatcher
  // ---------------------------------------------------------------------

  /** The workout code the dispatcher maps to each variant. */
  function Code(t: Training): (r: string)
    ensures r in {"SWM", "RUN", "WLK"}
    ensures t.Swimming? <==> r == "SWM"
    ensures t.Running? <==> r == "RUN"
  {
    match t
    case Running(_, _, _) => "RUN"
    case SportsWalking(_, _, _, _) => "WLK"
    case Swimming(_, _, _, _, _) => "SWM"
  }

  /** The number of constructor arguments of the variant a known code names. */
  function Arity(code: string): (r: nat)
    requires code in {"SWM", "RUN", "WLK"}
    ensures 3 <= r <= 5
  {
    if code == "SWM" then 5 else if code == "RUN" then 3 else 4
  }

  /** The constructor arguments of a session, in positional order. */
  function Readings(t: Training): (r: seq<real>)
    ensures |r| == Arity(Code(t))
    ensures r[0] == t.action && r[1] == t.duration && r[2] == t.weight
  {
    match t
    case Running(action, duration, weight) => [action, duration, weight]
    case SportsWalking(action, duration, weight, height) => [action, duration, weight, height]
    case Swimming(action, duration, weight, lengthPool, countPool) =>
      [action, duration, weight, lengthPool, countPool]
  }

  /** Looks the code up in the table of workout types and calls the
      constructor it finds with the readings as positional arguments. An
      unknown code fails the lookup; a reading list of the wrong length fails
      the call, neither truncated nor padded. */
  function ReadPackage(workoutType: string, data: seq<real>): (r: Result<Training>)
    ensures workoutType !in {"SWM", "RUN", "WLK"} ==> r == Failure(UnknownWorkoutType(workoutType))
    ensures workoutType in {"SWM", "RUN", "WLK"} && |data| != Arity(workoutType) ==>
      r == Failure(WrongArgumentCount(Arity(workoutType), |data|))
    ensures r.Success? <==> workoutType in {"SWM", "RUN", "WLK"} && |data| == Arity(workoutType)
    ensures r.Success? ==> Code(r.value) == workoutType && Readings(r.value) == data
  {
    if workoutType !in {"SWM", "RUN", "WLK"} then
      Failure(UnknownWorkoutType(workoutType))
    else if |data| != Arity(workoutType) then
      Failure(WrongArgumentCount(Arity(workoutType), |data|))
    else if workoutType == "SWM" then
      Success(Swimming(data[0], data[1], data[2], data[3], data[4]))
    else if workoutType == "RUN" then
      Success(Running(data[0], data[1], data[2]))
    else
      Success(SportsWalking(data[0], data[1], data[2], data[3]))
  }
}
