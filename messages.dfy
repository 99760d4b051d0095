/** The report of one training: the record `InfoMessage`, the operation that
    fills it from a training, and the fixed text template it is rendered with. */
module Messages {
  import opened Outcomes
  import opened Trainings

  /** The summary of one training, fields in the order the program lists them. */
  datatype InfoMessage = InfoMessage(
    trainingType: string,
    duration: real,
    distance: real,
    speed: real,
    calories: real)

  /** The display name of each variant: the name of the class it stands for.
      Only the base training is called "Training", and no name holds the
      semicolon that ends the name in a rendered line. */
  function TypeName(t: Training): (name: string)
    ensures name == "Training" <==> t.BaseTraining?
    ensures ';' !in name
  {
    match t
    case BaseTraining(_, _, _) => "Training"
    case Running(_, _, _) => "Running"
    case SportsWalking(_, _, _, _) => "SportsWalking"
    case Swimming(_, _, _, _, _) => "Swimming"
  }

  /** The name alone tells the variant: two trainings share a name exactly
      when they are built by the same constructor. */
  lemma TypeNameIdentifiesVariant(t: Training, u: Training)
    ensures TypeName(t) == TypeName(u) <==>
            (t.BaseTraining? && u.BaseTraining?) || (t.Running? && u.Running?) ||
            (t.SportsWalking? && u.SportsWalking?) || (t.Swimming? && u.Swimming?)
  {
  }

  /** The report of a training: its name, duration, distance, mean speed and
      calories, each computed by the training's own formula. The base training
      has no calorie formula, so its report fails. */
  function ShowTrainingInfo(t: Training): (r: Result<InfoMessage>)
    requires Computable(t)
    ensures r.Err? <==> t.BaseTraining?
    ensures r.Err? ==> r.error == NotImplemented
    ensures r.Ok? ==> r.value.trainingType == TypeName(t) && r.value.duration == t.duration
    ensures r.Ok? ==> r.value.distance == Distance(t) && r.value.speed == MeanSpeed(t)
    ensures r.Ok? ==> SpentCalories(t) == Ok(r.value.calories)
  {
    var distance := Distance(t);
    var speed := MeanSpeed(t);
    match SpentCalories(t)
    case Err(e) => Err(e)
    case Ok(calories) => Ok(InfoMessage(TypeName(t), t.duration, distance, speed, calories))
  }

  /** Inputs a physical workout can have: non-negative counts, weight and pool
      sizes, positive duration and height. */
  predicate PhysicallyValid(t: Training)
  {
    && t.action >= 0.0 && t.weight >= 0.0 && t.duration > 0.0
    && (t.SportsWalking? ==> t.height > 0.0)
    && (t.Swimming? ==> t.lengthPool >= 0.0 && t.countPool >= 0.0)
  }

  /** For every variant with a calorie formula and physically valid inputs the
      report exists and none of its figures is negative; outside swimming its
      speed times its duration is its distance. */
  lemma ReportIsSound(t: Training)
    requires !t.BaseTraining? && PhysicallyValid(t)
    ensures ShowTrainingInfo(t).Ok?
    ensures var m := ShowTrainingInfo(t).value;
            m.distance >= 0.0 && m.speed >= 0.0 && m.calories >= 0.0
    ensures var m := ShowTrainingInfo(t).value;
            !t.Swimming? ==> m.speed * m.duration == m.distance
  {
  }

  // ---------------------------------------------------------------------
  // Text rendering

  const Header: string := "Тип тренировки: "

  /** The report as one line of text. How a number is rendered with three
      decimals is left to `fmt`; only the fixed text around it is modelled. */
  function GetMessage(m: InfoMessage, fmt: real -> string): (line: string)
    ensures Header + m.trainingType + "; Длительность: " <= line
    ensures var tail := " км/ч; Потрачено ккал: " + fmt(m.calories) + ".";
            |tail| <= |line| && line[|line| - |tail|..] == tail
  {
    var head := " ч.; Дистанция: " + fmt(m.distance) + " км; Ср. скорость: " + fmt(m.speed);
    var tail := " км/ч; Потрачено ккал: " + fmt(m.calories) + ".";
    assert FiguresText(m, fmt) == "; Длительность: " + (fmt(m.duration) + head + tail);
    Header + m.trainingType + FiguresText(m, fmt)
  }

  /** The part of the line after the type name: the four figures with their
      labels and units. */
  function FiguresText(m: InfoMessage, fmt: real -> string): string
  {
    "; Длительность: " + fmt(m.duration)
    + " ч.; Дистанция: " + fmt(m.distance)
    + " км; Ср. скорость: " + fmt(m.speed)
    + " км/ч; Потрачено ккал: " + fmt(m.calories) + "."
  }

  /** The text of `s` before the first `c`, or all of it. */
  function UpTo(s: string, c: char): (p: string)
    ensures c !in p
    ensures p <= s
    ensures |p| < |s| ==> s[|p|] == c
  {
    if |s| == 0 || s[0] == c then [] else [s[0]] + UpTo(s[1..], c)
  }

  lemma {:induction false} UpToStopsAtSeparator(p: string, c: char, rest: string)
    requires c !in p
    ensures UpTo(p + [c] + rest, c) == p
  {
    if p != [] {
      assert (p + [c] + rest)[1..] == p[1..] + [c] + rest;
      UpToStopsAtSeparator(p[1..], c, rest);
    }
  }

  /** The type name read back from a rendered line: the text between the
      header and the first semicolon. */
  function ParseTrainingType(line: string): (r: Option<string>)
    ensures r.Some? ==> Header <= line && ';' !in r.value
  {
    if Header <= line then Some(UpTo(line[|Header|..], ';')) else None
  }

  /** The rendered line carries the type name unchanged, whatever the number
      formatter does, as long as the name holds no semicolon. */
  lemma MessageCarriesTypeName(m: InfoMessage, fmt: real -> string)
    requires ';' !in m.trainingType
    ensures ParseTrainingType(GetMessage(m, fmt)) == Some(m.trainingType)
  {
    var line := GetMessage(m, fmt);
    var n := |Header| + |m.trainingType|;
    assert Header + m.trainingType + [';'] <= line by {
      assert Header + m.trainingType + "; Длительность: " <= line;
    }
    var after := line[|Header|..];
    assert after == m.trainingType + [';'] + line[n + 1..];
    UpToStopsAtSeparator(m.trainingType, ';', line[n + 1..]);
  }
}
