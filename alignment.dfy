/** The alignment solver `_calculate_180_degree_rotation` and the sign rule
    of `_render_gears` (src/generator.py).

    The solver looks for a common rotation `r` that brings the green
    (marked) tooth of the second-to-last gear onto the line towards the
    last gear, and the green tooth of the last gear onto the opposite
    direction.  Gears with an even index turn by `+r`, gears with an odd
    index by `-r`; the renderer applies the same rule.  The candidates are
    `k * pi/180` for `k` in `0 .. 720`, scanned in order, and the first one
    whose two folded differences are both below 0.05 is returned; when none
    is, the solver returns pi/3.

    The result is modelled as a `Solution` that says which of the three
    returns was taken; `Offset` is the float the source returns. */
module Alignment {
  import opened Angles
  import opened Layout
  import opened Teeth

  /** `math.pi / 180`: one degree. */
  const ROTATION_STEP: real := PI / 180.0

  /** `4 * math.pi`: two full turns. */
  const MAX_ROTATION: real := 4.0 * PI

  /** `int(max_rotation / step)`, which is 720 in exact arithmetic. */
  const CANDIDATES: nat := 720

  /** The `~3 degree` acceptance bound on both folded differences. */
  const TOLERANCE: real := 0.05

  /** The value returned when no candidate is accepted. */
  const FALLBACK: real := PI / 3.0

  /** Which `return` of the solver is taken. */
  datatype Solution = TooFewGears | Found(k: nat) | Fallback

  /** Candidate `k` of the scan, `k * step`. */
  function Candidate(k: int): real
  {
    k as real * ROTATION_STEP
  }

  /** The float the solver returns. */
  function Offset(sol: Solution): real
  {
    match sol
    case TooFewGears => 0.0
    case Found(k) => Candidate(k)
    case Fallback => FALLBACK
  }

  /** The sign rule of the solver and of `_render_gears`: a gear with an even
      index turns by `+offset`, one with an odd index by `-offset`. */
  function GearRotation(base: real, index: int, offset: real): real
  {
    if index % 2 == 0 then base + offset else base - offset
  }

  /** The angle of the marked tooth `green` of a gear turned by `base`:
      `base + green * 2 * pi / num_teeth`. */
  function MarkedAngle(base: real, green: int): real
  {
    base + green as real * 2.0 * PI / NUM_TEETH as real
  }

  /** What the scan compares: the two marked-tooth angles before rotation,
      the two gear indices and the angle of the line from the
      second-to-last gear to the last. */
  datatype Target = Target(baseSecondLast: real, baseLast: real, secondLastIdx: int, lastIdx: int, connection: real)

  /** Candidate rotation `rotation` brings both marked teeth within the
      tolerance of the connecting line, folded as the solver folds. */
  predicate Aligned(t: Target, rotation: real)
  {
    var current1 := Mod2Pi(GearRotation(t.baseSecondLast, t.secondLastIdx, rotation));
    var current2 := Mod2Pi(GearRotation(t.baseLast, t.lastIdx, rotation));
    var connection := Mod2Pi(t.connection);
    var target2 := Mod2Pi(connection + PI);
    CircularDiff(current1, connection) < TOLERANCE && CircularDiff(current2, target2) < TOLERANCE
  }

  /** The `for rotation in ...` scan from candidate `k` on: the first
      accepted candidate, or the fallback. */
  function SearchFrom(t: Target, k: nat): (sol: Solution)
    requires k <= CANDIDATES
    decreases CANDIDATES - k
    ensures sol.Found? || sol.Fallback?
    ensures sol.Found? ==> k <= sol.k < CANDIDATES && Aligned(t, Candidate(sol.k))
    ensures sol.Found? ==> forall j :: k <= j < sol.k ==> !Aligned(t, Candidate(j))
    ensures sol.Fallback? <==> forall j :: k <= j < CANDIDATES ==> !Aligned(t, Candidate(j))
  {
    if k == CANDIDATES then Fallback
    else if Aligned(t, Candidate(k)) then Found(k)
    else SearchFrom(t, k + 1)
  }

  /** What `_calculate_180_degree_rotation` compares for the last two gears. */
  function TargetOf(trig: Trig, rotationAngles: seq<real>, greenTeeth: seq<int>, numGears: int, gears: seq<Gear>): Target
    requires 2 <= numGears <= |rotationAngles| && numGears <= |greenTeeth| && numGears <= |gears|
  {
    var lastIdx, secondLastIdx := numGears - 1, numGears - 2;
    Target(
      MarkedAngle(rotationAngles[secondLastIdx], greenTeeth[secondLastIdx]),
      MarkedAngle(rotationAngles[lastIdx], greenTeeth[lastIdx]),
      secondLastIdx,
      lastIdx,
      ConnectionAngle(trig, gears[secondLastIdx], gears[lastIdx]))
  }

  /** `_calculate_180_degree_rotation(rotation_angles, green_tooth_indices,
      directions, num_gears, gears)`.  With fewer than two gears it
      returns 0; otherwise the first candidate `k` in `0 .. 720` that
      aligns both marked teeth, or the fallback exactly when none does.
      The `directions` argument is not read by the source and is not
      modelled. */
  function Calculate180DegreeRotation(trig: Trig, rotationAngles: seq<real>, greenTeeth: seq<int>, numGears: int,
                                      gears: seq<Gear>): (sol: Solution)
    requires numGears >= 2 ==> numGears <= |rotationAngles| && numGears <= |greenTeeth| && numGears <= |gears|
    ensures sol.TooFewGears? <==> numGears < 2
    ensures sol.Found? ==>
              var t := TargetOf(trig, rotationAngles, greenTeeth, numGears, gears);
              && sol.k < CANDIDATES
              && Aligned(t, Candidate(sol.k))
              && forall j :: 0 <= j < sol.k ==> !Aligned(t, Candidate(j))
    ensures sol.Fallback? <==>
              numGears >= 2 &&
              forall j :: 0 <= j < CANDIDATES ==> !Aligned(TargetOf(trig, rotationAngles, greenTeeth, numGears, gears), Candidate(j))
  {
    if numGears < 2 then TooFewGears
    else SearchFrom(TargetOf(trig, rotationAngles, greenTeeth, numGears, gears), 0)
  }

  /** The value returned is 0, a candidate in [0, 4pi), or pi/3. */
  lemma OffsetRange(sol: Solution)
    requires sol.Found? ==> sol.k < CANDIDATES
    ensures sol.TooFewGears? ==> Offset(sol) == 0.0
    ensures sol.Found? ==> 0.0 <= Offset(sol) < MAX_ROTATION
    ensures sol.Fallback? ==> Offset(sol) == PI / 3.0
  {
    if sol.Found? {
      assert Candidate(sol.k) <= (CANDIDATES - 1) as real * ROTATION_STEP;
    }
  }

  /** The fallback is itself the 60th candidate: a caller cannot tell from
      the returned float that no candidate was accepted. */
  lemma FallbackIsACandidate()
    ensures Offset(Fallback) == Offset(Found(60))
  {
    assert Candidate(60) == 60.0 * (PI / 180.0);
  }

  /** Adjacent gears turn by opposite amounts. */
  lemma AdjacentGearsCounterRotate(base1: real, base2: real, index: nat, offset: real)
    ensures GearRotation(base1, index, offset) - base1 == -(GearRotation(base2, index + 1, offset) - base2)
  {
    assert (index + 1) % 2 != index % 2;
  }

  /** The sign each gear turns by is the one its direction says: `+` for the
      gears that share the first gear's direction, `-` for the others. */
  lemma RotationFollowsDirection(directions: seq<Direction>, first: Direction, index: nat, base: real, offset: real)
    requires Alternates(directions, first) && index < |directions|
    ensures GearRotation(base, index, offset) == if directions[index] == first then base + offset else base - offset
  {
  }

  /** Rotating a gear and then marking a tooth is marking and then rotating. */
  lemma MarkedAfterRotation(base: real, green: int, index: int, offset: real)
    ensures GearRotation(MarkedAngle(base, green), index, offset) == MarkedAngle(GearRotation(base, index, offset), green)
  {
  }

  /** The rotation of every gear as `_render_gears` draws it for
      `rotation_offset`. */
  function RenderedRotations(baseAngles: seq<real>, offset: real): (rotations: seq<real>)
    ensures |rotations| == |baseAngles|
  {
    seq(|baseAngles|, i requires 0 <= i < |baseAngles| => GearRotation(baseAngles[i], i, offset))
  }

  /** An accepted rotation, measured with the collision test's fold: the
      first marked tooth points within the tolerance of the connecting line,
      the second within the tolerance of its opposite. */
  lemma AlignedInFacingFold(t: Target, rotation: real)
    requires Aligned(t, rotation)
    ensures FacingDiff(GearRotation(t.baseSecondLast, t.secondLastIdx, rotation), t.connection) < TOLERANCE
    ensures FacingDiff(GearRotation(t.baseLast, t.lastIdx, rotation), t.connection + PI) < TOLERANCE
  {
    FoldsAgree(GearRotation(t.baseSecondLast, t.secondLastIdx, rotation), t.connection);
    FoldsAgree(GearRotation(t.baseLast, t.lastIdx, rotation), t.connection + PI);
    Mod2PiAddLeft(t.connection, PI);
  }

  /** The marked tooth of a rendered gear faces where the solver's rotated
      marked angle points.  `_draw_gear` draws tooth `i` at
      `rotation_angle + 2 * pi * i / num_teeth`, the facing `ToothAt` gives. */
  lemma RenderedMarkedTooth(trig: Trig, gear: Gear, radius: int, baseAngles: seq<real>, index: nat, green: nat, offset: real)
    requires index < |baseAngles|
    ensures ToothAt(trig, gear, RenderedRotations(baseAngles, offset)[index], radius, green).facing
         == GearRotation(MarkedAngle(baseAngles[index], green), index, offset)
  {
    MarkedAfterRotation(baseAngles[index], green, index, offset);
  }

  /** For an accepted rotation `r`, the picture drawn with offset `r` shows
      the two marked teeth on the connecting line. */
  lemma AlignedRenderedTeeth(trig: Trig, radius: int, rotationAngles: seq<real>, greenTeeth: seq<int>,
                             gears: seq<Gear>, r: real)
    requires 2 <= |gears| && |rotationAngles| == |gears| && |greenTeeth| == |gears|
    requires 0 <= greenTeeth[|gears| - 2] && 0 <= greenTeeth[|gears| - 1]
    requires Aligned(TargetOf(trig, rotationAngles, greenTeeth, |gears|, gears), r)
    ensures var n := |gears|;
            var rendered := RenderedRotations(rotationAngles, r);
            var connection := ConnectionAngle(trig, gears[n - 2], gears[n - 1]);
            && FacingDiff(ToothAt(trig, gears[n - 2], rendered[n - 2], radius, greenTeeth[n - 2]).facing, connection) < TOLERANCE
            && FacingDiff(ToothAt(trig, gears[n - 1], rendered[n - 1], radius, greenTeeth[n - 1]).facing, connection + PI) < TOLERANCE
  {
    var n := |gears|;
    var t := TargetOf(trig, rotationAngles, greenTeeth, n, gears);
    RenderedMarkedTooth(trig, gears[n - 2], radius, rotationAngles, n - 2, greenTeeth[n - 2], r);
    RenderedMarkedTooth(trig, gears[n - 1], radius, rotationAngles, n - 1, greenTeeth[n - 1], r);
    AlignedInFacingFold(t, r);
  }

  /** When the solver finds a candidate, the picture drawn with that offset
      shows the two marked teeth on the connecting line: tooth `green` of
      the second-to-last gear, drawn by `_draw_gear` at the facing `ToothAt`
      gives for the rendered rotation, faces the last gear within the tolerance, and
      that of the last gear faces the opposite way, both measured with the
      collision test's fold. */
  lemma FoundAlignsRenderedMarkedTeeth(trig: Trig, radius: int, rotationAngles: seq<real>, greenTeeth: seq<int>,
                                       gears: seq<Gear>)
    requires 2 <= |gears| && |rotationAngles| == |gears| && |greenTeeth| == |gears|
    requires forall i :: 0 <= i < |greenTeeth| ==> 0 <= greenTeeth[i] < NUM_TEETH
    ensures var n := |gears|;
            var sol := Calculate180DegreeRotation(trig, rotationAngles, greenTeeth, n, gears);
            var rendered := RenderedRotations(rotationAngles, Offset(sol));
            var connection := ConnectionAngle(trig, gears[n - 2], gears[n - 1]);
            sol.Found? ==>
              && FacingDiff(ToothAt(trig, gears[n - 2], rendered[n - 2], radius, greenTeeth[n - 2]).facing, connection) < TOLERANCE
              && FacingDiff(ToothAt(trig, gears[n - 1], rendered[n - 1], radius, greenTeeth[n - 1]).facing, connection + PI) < TOLERANCE
  {
    var n := |gears|;
    var sol := Calculate180DegreeRotation(trig, rotationAngles, greenTeeth, n, gears);
    if sol.Found? {
      AlignedRenderedTeeth(trig, radius, rotationAngles, greenTeeth, gears, Offset(sol));
    }
  }
}
