/** `_generate_task_data` (src/generator.py): one gear-chain puzzle.

    The random draws of the source (`random.randint` for the gear count
    and the green teeth, `random.choice` for the first direction and the
    line type, `random.uniform` for the first gear's angle) are passed in
    as a `Draws` value. */
module TaskData {
  import opened Angles
  import opened Layout
  import opened Meshing
  import opened Alignment

  /** The random values one call of `_generate_task_data` draws. */
  datatype Draws = Draws(
    numGears: int,
    firstDirection: Direction,
    lineType: LineType,
    seed: real,
    greenTeeth: seq<int>)

  /** The dictionary `_generate_task_data` returns. */
  datatype TaskData = TaskData(
    numGears: int,
    gears: seq<Gear>,
    directions: seq<Direction>,
    firstDirection: Direction,
    lastDirection: Direction,
    lineType: LineType,
    rotationAngles: seq<real>,
    greenTeeth: seq<int>,
    finalRotation: real)

  /** `range(num_gears)` has no elements for a negative count. */
  function Count(numGears: int): nat
  {
    if numGears < 0 then 0 else numGears
  }

  /** `_generate_task_data()`.  The gear count is drawn from
      `[min_gears, max_gears]` and each green tooth from `[0, 11]`, one per
      gear. */
  method GenerateTaskData(cfg: Config, trig: Trig, draws: Draws) returns (task: TaskData)
    requires cfg.minGears <= draws.numGears <= cfg.maxGears
    requires |draws.greenTeeth| == Count(draws.numGears)
    requires forall i :: 0 <= i < |draws.greenTeeth| ==> 0 <= draws.greenTeeth[i] < NUM_TEETH
    ensures task.numGears == draws.numGears && task.firstDirection == draws.firstDirection
    ensures task.lineType == draws.lineType && task.greenTeeth == draws.greenTeeth
    ensures |task.gears| == Count(draws.numGears)
    ensures forall i :: 0 <= i < |task.gears| ==> task.gears[i] == CenterAt(cfg, |task.gears|, draws.lineType, i)
    ensures |task.directions| == |task.gears| && Alternates(task.directions, draws.firstDirection)
    ensures forall i :: 0 <= i < |task.directions| - 1 ==> task.directions[i] != task.directions[i + 1]
    ensures task.lastDirection == draws.firstDirection <==> draws.numGears % 2 == 1
    ensures |task.directions| >= 1 ==> task.lastDirection == task.directions[|task.directions| - 1]
    ensures task.rotationAngles
         == ResolveFrom(MeshTest(trig, cfg.gearRadius), task.gears, InitialAngles(trig, task.gears, draws.seed), 0)
    ensures |task.rotationAngles| == |task.gears|
    ensures task.finalRotation
         == Offset(Calculate180DegreeRotation(trig, task.rotationAngles, task.greenTeeth, task.numGears, task.gears))
  {
    var numGears := draws.numGears;
    var firstDirection := draws.firstDirection;
    var lastDirection;
    if numGears % 2 == 1 {
      lastDirection := firstDirection;
    } else {
      lastDirection := Opposite(firstDirection);
    }
    assert lastDirection == LastDirection(numGears, firstDirection);

    var gears := PlaceCenters(cfg, Count(numGears), draws.lineType);
    var directions := AssignDirections(Count(numGears), firstDirection);
    if |directions| >= 1 {
      LastDirectionIsLastGear(directions, firstDirection);
    }
    var rotationAngles := InitializeAnglesWithMeshing(trig, cfg.gearRadius, gears, draws.seed);
    var finalRotation := Offset(Calculate180DegreeRotation(trig, rotationAngles, draws.greenTeeth, numGears, gears));
    task := TaskData(numGears, gears, directions, firstDirection, lastDirection, draws.lineType,
                     rotationAngles, draws.greenTeeth, finalRotation);
  }
}
