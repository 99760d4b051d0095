/** The three sample packages of the program's driver, read and reported with
    exact arithmetic, and an unknown code. */
module Samples {
  import opened Outcomes
  import opened Trainings
  import opened Messages
  import opened Packages

  /** 720 strokes in an hour at 80 kg over 40 laps of a 25 m pool. */
  lemma SwimmingSample()
    ensures var p := ReadPackage("SWM", [720.0, 1.0, 80.0, 25.0, 40.0]);
            && p == Ok(Some(Swimming(720.0, 1.0, 80.0, 25.0, 40.0)))
            && ShowTrainingInfo(p.value.value) == Ok(InfoMessage("Swimming", 1.0, 0.9936, 1.0, 336.0))
  {
  }

  /** 15000 steps of running in an hour at 75 kg. */
  lemma RunningSample()
    ensures var p := ReadPackage("RUN", [15000.0, 1.0, 75.0]);
            && p == Ok(Some(Running(15000.0, 1.0, 75.0)))
            && ShowTrainingInfo(p.value.value) == Ok(InfoMessage("Running", 1.0, 9.75, 9.75, 797.805))
  {
  }

  /** 9000 steps of walking in an hour at 75 kg and 180 cm. */
  lemma WalkingSample()
    ensures var p := ReadPackage("WLK", [9000.0, 1.0, 75.0, 180.0]);
            && p == Ok(Some(SportsWalking(9000.0, 1.0, 75.0, 180.0)))
            && ShowTrainingInfo(p.value.value)
               == Ok(InfoMessage("SportsWalking", 1.0, 5.85, 5.85, 349.251747525))
  {
  }

  /** An unknown code yields nothing for three numbers and fails otherwise. */
  lemma UnknownCodeSample()
    ensures ReadPackage("XYZ", [1.0, 1.0, 75.0]) == Ok(None)
    ensures ReadPackage("XYZ", [1.0, 1.0]) == Err(ArgumentCount(3, 2))
  {
  }
}
