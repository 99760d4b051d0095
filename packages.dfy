/** The dispatcher: a package from the sensors is a workout code and the list
    of numbers it sent; the code picks the variant and the list is handed to
    its constructor in order. */
module Packages {
  import opened Outcomes
  import opened Trainings

  /** The codes the dispatcher knows. */
  predicate IsKnownCode(workoutType: string)
  {
    workoutType == "SWM" || workoutType == "RUN" || workoutType == "WLK"
  }

  /** The number of arguments the constructor chosen by a code takes. An
      unknown code still builds a base training, which takes three. */
  function Arity(workoutType: string): nat
  {
    if workoutType == "SWM" then 5
    else if workoutType == "WLK" then 4
    else 3
  }

  /** Decode a package. A list that does not fit the chosen constructor fails
      with an argument error; an unknown code with a fitting list yields no
      training. */
  function ReadPackage(workoutType: string, data: seq<real>): (r: Result<Option<Training>>)
    ensures r.Ok? <==> |data| == Arity(workoutType)
    ensures r.Err? ==> r.error == ArgumentCount(Arity(workoutType), |data|)
    ensures r.Ok? ==> (r.value.Some? <==> IsKnownCode(workoutType))
    ensures r.Ok? && r.value.Some? ==> !r.value.value.BaseTraining?
  {
    if |data| != Arity(workoutType) then
      Err(ArgumentCount(Arity(workoutType), |data|))
    else if workoutType == "SWM" then
      Ok(Some(Swimming(data[0], data[1], data[2], data[3], data[4])))
    else if workoutType == "RUN" then
      Ok(Some(Running(data[0], data[1], data[2])))
    else if workoutType == "WLK" then
      Ok(Some(SportsWalking(data[0], data[1], data[2], data[3])))
    else
      // the base training is built from the list and thrown away
      Ok(None)
  }

  /** The code that selects a variant. */
  function Code(t: Training): string
    requires !t.BaseTraining?
  {
    match t
    case Running(_, _, _) => "RUN"
    case SportsWalking(_, _, _, _) => "WLK"
    case Swimming(_, _, _, _, _) => "SWM"
  }

  /** A training's constructor arguments, in their declared order. */
  function Params(t: Training): seq<real>
  {
    match t
    case BaseTraining(action, duration, weight) => [action, duration, weight]
    case Running(action, duration, weight) => [action, duration, weight]
    case SportsWalking(action, duration, weight, height) => [action, duration, weight, height]
    case Swimming(action, duration, weight, lengthPool, countPool) =>
      [action, duration, weight, lengthPool, countPool]
  }

  /** Every variant the dispatcher builds is rebuilt from its own code and
      arguments. */
  lemma ReadPackageRoundTrip(t: Training)
    requires !t.BaseTraining?
    ensures IsKnownCode(Code(t)) && |Params(t)| == Arity(Code(t))
    ensures ReadPackage(Code(t), Params(t)) == Ok(Some(t))
  {
  }

  /** Conversely, a training the dispatcher yields is determined by the
      package: the package is exactly that training's code and arguments. */
  lemma ReadPackageInverse(workoutType: string, data: seq<real>, t: Training)
    requires ReadPackage(workoutType, data) == Ok(Some(t))
    ensures !t.BaseTraining? && workoutType == Code(t) && data == Params(t)
  {
  }

  /** An unknown code never yields a training: it either fails on the list
      or yields nothing. */
  lemma UnknownCodeYieldsNothing(workoutType: string, data: seq<real>)
    requires !IsKnownCode(workoutType)
    ensures ReadPackage(workoutType, data) == Ok(None) <==> |data| == 3
    ensures ReadPackage(workoutType, data) != Ok(None) ==>
            ReadPackage(workoutType, data) == Err(ArgumentCount(3, |data|))
  {
  }
}
