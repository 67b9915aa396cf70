/** The collision resolver `_initialize_angles_with_meshing`
    (src/generator.py).

    It first gives every gear a starting angle: the first gear the random
    seed, every later gear the angle of the line from its predecessor plus pi
    plus half a tooth step.  Then, for each adjacent pair `(i, i + 1)` from
    left to right, it runs three bounded tiers while the pair's facing teeth
    collide: advance the neighbour `i + 1` by pi/360 (at most 720 times),
    then advance gear `i` itself (at most 720 times), then alternate between
    the two (720 more iterations).  A tier that finds no collision breaks out
    of the pair; after the third tier the pair is left as it is.

    The per-pair procedure is specified as a small state machine over the
    tiers `AdvanceNeighbor`, `AdvanceSelf`, `Alternate` and `Exhausted`,
    with a flag recording a `break`.  `ResolvePair` runs the source's three
    loops and is proved to end in the state the machine reaches. */
module Meshing {
  import opened Angles
  import opened Layout
  import opened Teeth
  import opened Collision

  /** `math.pi / 360`: half a degree. */
  const ADJUSTMENT_STEP: real := PI / 360.0

  /** The bound of each of the three tiers. */
  const MAX_ITERATIONS: nat := 720

  /** `a += adjustment_step; a = a % (2 * math.pi)` */
  function Advance(x: real): (r: real)
    ensures 0.0 <= r < TWO_PI
  {
    Mod2Pi(x + ADJUSTMENT_STEP)
  }

  /** `Advance` applied `k` times. */
  function AdvanceTimes(x: real, k: nat): (r: real)
    ensures k > 0 ==> r == Advance(AdvanceTimes(x, k - 1))
  {
    Rotated(x, ADJUSTMENT_STEP, k)
  }

  /** `k >= 1` adjustments add `k * pi/360` and reduce once modulo 2pi. */
  lemma AdvanceTimesIsShift(x: real, k: nat)
    requires k >= 1
    ensures AdvanceTimes(x, k) == Mod2Pi(x + k as real * ADJUSTMENT_STEP)
  {
    RotatedIsShift(x, ADJUSTMENT_STEP, k);
  }

  /** A collision test for one pair, as a function of the two gears' angles. */
  type Collides = (real, real) -> bool

  /** A collision test for any two gears at given angles. */
  type GearTest = (Gear, real, Gear, real) -> bool

  /** `_check_teeth_collision`, with `radius` standing for
      `config.gear_radius`. */
  function MeshTest(trig: Trig, radius: int): GearTest
  {
    (g1: Gear, a: real, g2: Gear, b: real) => CheckTeethCollision(trig, radius, g1, a, g2, b)
  }

  /** The test of one pair `(first, second)`. */
  function PairTest(test: GearTest, first: Gear, second: Gear): Collides
  {
    (a: real, b: real) => test(first, a, second, b)
  }

  // ---------------------------------------------------------------------
  // The per-pair state machine

  datatype Tier = AdvanceNeighbor | AdvanceSelf | Alternate | Exhausted

  /** Where the resolver is in one pair: the tier, its loop counter, whether
      a check has broken out of the pair, the two angles, and how many
      adjustments each of the two gears has received. */
  datatype PairState = PairState(
    tier: Tier,
    iteration: nat,
    settled: bool,
    left: real,
    right: real,
    leftSteps: nat,
    rightSteps: nat)

  /** The state of a pair before its first check. */
  function Start(left: real, right: real): PairState
  {
    PairState(AdvanceNeighbor, 0, false, left, right, 0, 0)
  }

  predicate Active(s: PairState)
  {
    !s.settled && !s.tier.Exhausted?
  }

  function Rank(t: Tier): nat
  {
    match t
    case AdvanceNeighbor => 2
    case AdvanceSelf => 1
    case _ => 0
  }

  function Measure(s: PairState): nat
    requires s.iteration <= MAX_ITERATIONS
  {
    if Active(s) then Rank(s.tier) * (MAX_ITERATIONS + 1) + (MAX_ITERATIONS - s.iteration) + 1 else 0
  }

  /** How the adjustment counts follow from the tier and its counter: the
      first tier moves only the neighbour, the second only gear `i`, the
      third alternates starting with the neighbour. */
  predicate Counted(s: PairState)
  {
    && s.iteration <= MAX_ITERATIONS
    && match s.tier
       case AdvanceNeighbor => s.leftSteps == 0 && s.rightSteps == s.iteration
       case AdvanceSelf => s.rightSteps == MAX_ITERATIONS && s.leftSteps == s.iteration
       case Alternate =>
         s.rightSteps == MAX_ITERATIONS + (s.iteration + 1) / 2 && s.leftSteps == MAX_ITERATIONS + s.iteration / 2
       case Exhausted =>
         s.rightSteps == MAX_ITERATIONS + MAX_ITERATIONS / 2 && s.leftSteps == MAX_ITERATIONS + MAX_ITERATIONS / 2
  }

  /** One iteration of whichever loop the pair is in: at the bound, move to
      the next tier; otherwise check, and either break or adjust. */
  function Step(c: Collides, s: PairState): (t: PairState)
    requires s.iteration <= MAX_ITERATIONS && Active(s)
    ensures t.iteration <= MAX_ITERATIONS && Measure(t) < Measure(s)
    ensures Counted(s) ==> Counted(t)
    ensures t.settled ==> !c(t.left, t.right)
    ensures (t.leftSteps == s.leftSteps && t.left == s.left) || (t.leftSteps == s.leftSteps + 1 && t.left == Advance(s.left))
    ensures (t.rightSteps == s.rightSteps && t.right == s.right) || (t.rightSteps == s.rightSteps + 1 && t.right == Advance(s.right))
  {
    match s.tier
    case AdvanceNeighbor =>
      if s.iteration == MAX_ITERATIONS then s.(tier := AdvanceSelf, iteration := 0)
      else if !c(s.left, s.right) then s.(settled := true)
      else s.(right := Advance(s.right), rightSteps := s.rightSteps + 1, iteration := s.iteration + 1)
    case AdvanceSelf =>
      if s.iteration == MAX_ITERATIONS then s.(tier := Alternate, iteration := 0)
      else if !c(s.left, s.right) then s.(settled := true)
      else s.(left := Advance(s.left), leftSteps := s.leftSteps + 1, iteration := s.iteration + 1)
    case Alternate =>
      if s.iteration == MAX_ITERATIONS then s.(tier := Exhausted)
      else if !c(s.left, s.right) then s.(settled := true)
      else if s.iteration % 2 == 0 then
        s.(right := Advance(s.right), rightSteps := s.rightSteps + 1, iteration := s.iteration + 1)
      else
        s.(left := Advance(s.left), leftSteps := s.leftSteps + 1, iteration := s.iteration + 1)
  }

  /** The machine run to the end: a `break` or the end of the third tier. */
  function Run(c: Collides, s: PairState): (t: PairState)
    requires s.iteration <= MAX_ITERATIONS
    decreases Measure(s)
    ensures !Active(t)
    ensures Counted(s) ==> Counted(t)
    ensures (s.settled ==> !c(s.left, s.right)) ==> (t.settled ==> !c(t.left, t.right))
  {
    if Active(s) then Run(c, Step(c, s)) else s
  }

  /** The angles the run reaches are the starting angles advanced by the
      counted number of adjustments. */
  lemma {:induction false} RunTracksAdjustments(c: Collides, s: PairState, left0: real, right0: real)
    requires s.iteration <= MAX_ITERATIONS
    decreases Measure(s)
    requires s.left == AdvanceTimes(left0, s.leftSteps) && s.right == AdvanceTimes(right0, s.rightSteps)
    ensures var t := Run(c, s);
            t.left == AdvanceTimes(left0, t.leftSteps) && t.right == AdvanceTimes(right0, t.rightSteps)
  {
    if Active(s) {
      var t := Step(c, s);
      assert t.left == AdvanceTimes(left0, t.leftSteps);
      assert t.right == AdvanceTimes(right0, t.rightSteps);
      RunTracksAdjustments(c, t, left0, right0);
    }
  }

  /** What the resolver promises about one pair:
      - it ends by a `break` or by running out of the third tier;
      - after a `break` the two gears do not collide;
      - it makes at most 3 * 720 adjustments, and each angle is its starting
        value advanced once per adjustment it received;
      - when the first tier breaks before its bound, gear `i` is untouched;
      - when all three tiers run out, each gear received 1080 adjustments;
      - a pair that does not collide at the start is left as it is. */
  lemma ResolvePairFacts(c: Collides, left0: real, right0: real)
    ensures var t := Run(c, Start(left0, right0));
            && (t.settled || t.tier.Exhausted?)
            && (t.settled ==> !c(t.left, t.right))
            && t.leftSteps + t.rightSteps <= 3 * MAX_ITERATIONS
            && t.left == AdvanceTimes(left0, t.leftSteps)
            && t.right == AdvanceTimes(right0, t.rightSteps)
            && (t.rightSteps < MAX_ITERATIONS ==> t.settled && t.leftSteps == 0 && t.left == left0)
            && (t.tier.Exhausted? ==> t.leftSteps == 1080 && t.rightSteps == 1080)
            && (!c(left0, right0) ==> t == Start(left0, right0).(settled := true))
  {
    var s0 := Start(left0, right0);
    var t := Run(c, s0);
    RunTracksAdjustments(c, s0, left0, right0);
    assert Counted(s0);
    assert Counted(t);
    if !c(left0, right0) {
      assert Step(c, s0) == s0.(settled := true);
    }
  }

  // ---------------------------------------------------------------------
  // The whole chain

  /** The state pair `i` ends in. */
  function PairRun(test: GearTest, gears: seq<Gear>, angles: seq<real>, i: nat): PairState
    requires |angles| == |gears| && i + 1 < |gears|
  {
    Run(PairTest(test, gears[i], gears[i + 1]), Start(angles[i], angles[i + 1]))
  }

  /** The angles after pair `i` has been processed. */
  function ApplyPair(test: GearTest, gears: seq<Gear>, angles: seq<real>, i: nat): (r: seq<real>)
    requires |angles| == |gears| && i + 1 < |gears|
    ensures |r| == |angles|
    ensures forall k :: 0 <= k < |r| && k != i && k != i + 1 ==> r[k] == angles[k]
  {
    var t := PairRun(test, gears, angles, i);
    angles[i := t.left][i + 1 := t.right]
  }

  /** The angles after pairs `i`, `i + 1`, ... have been processed in turn. */
  function ResolveFrom(test: GearTest, gears: seq<Gear>, angles: seq<real>, i: nat): (r: seq<real>)
    requires |angles| == |gears|
    decreases |gears| - i
    ensures |r| == |angles|
  {
    if i + 1 >= |gears| then angles
    else ResolveFrom(test, gears, ApplyPair(test, gears, angles, i), i + 1)
  }

  /** Processing is strictly left to right: pairs from `i` on never touch a
      gear before `i`. */
  lemma {:induction false} ResolveFromKeepsEarlier(test: GearTest, gears: seq<Gear>, angles: seq<real>, i: nat)
    requires |angles| == |gears|
    decreases |gears| - i
    ensures forall k :: 0 <= k < i && k < |angles| ==> ResolveFrom(test, gears, angles, i)[k] == angles[k]
  {
    if i + 1 < |gears| {
      var next := ApplyPair(test, gears, angles, i);
      ResolveFromKeepsEarlier(test, gears, next, i + 1);
    }
  }

  /** Pair `i` of `_initialize_angles_with_meshing` as the chain sees it:
      after a `break` the pair's gears no longer collide, gear `i` is moved
      only when the first tier ran out, and each angle is advanced once per
      adjustment it received, at most 3 * 720 in all. */
  lemma ApplyPairOutcome(trig: Trig, radius: int, gears: seq<Gear>, angles: seq<real>, i: nat)
    requires |angles| == |gears| && i + 1 < |gears|
    ensures var t := PairRun(MeshTest(trig, radius), gears, angles, i);
            var r := ApplyPair(MeshTest(trig, radius), gears, angles, i);
            && (t.settled || t.tier.Exhausted?)
            && (t.settled ==> !CheckTeethCollision(trig, radius, gears[i], r[i], gears[i + 1], r[i + 1]))
            && r[i] == AdvanceTimes(angles[i], t.leftSteps)
            && r[i + 1] == AdvanceTimes(angles[i + 1], t.rightSteps)
            && t.leftSteps + t.rightSteps <= 3 * MAX_ITERATIONS
            && (t.rightSteps < MAX_ITERATIONS ==> r[i] == angles[i])
  {
    ResolvePairFacts(PairTest(MeshTest(trig, radius), gears[i], gears[i + 1]), angles[i], angles[i + 1]);
  }

  /** The starting angles: the seed for the first gear, and for every later
      gear the connection angle from its predecessor plus pi plus half a
      tooth step. */
  function InitialAngles(trig: Trig, gears: seq<Gear>, seed: real): (angles: seq<real>)
    ensures |angles| == |gears|
    ensures |gears| > 0 ==> angles[0] == seed
  {
    seq(|gears|, k requires 0 <= k < |gears| =>
      if k == 0 then seed else ConnectionAngle(trig, gears[k - 1], gears[k]) + PI + TOOTH_STEP / 2.0)
  }

  /** On a horizontal chain, where `atan2(0, dx)` is 0 for a positive `dx`,
      every gear after the first starts at pi + pi/12. */
  lemma HorizontalInitialAngles(trig: Trig, cfg: Config, gears: seq<Gear>, seed: real, k: nat)
    requires GearSpacing(cfg) > 0
    requires forall dx: real :: dx > 0.0 ==> trig.atan2(0.0, dx) == 0.0
    requires forall i: nat :: i < |gears| ==> gears[i] == CenterAt(cfg, |gears|, Horizontal, i)
    requires 1 <= k < |gears|
    ensures InitialAngles(trig, gears, seed)[k] == PI + PI / 12.0
  {
    HorizontalSpacing(cfg, |gears|, k - 1);
    assert gears[k].y == gears[k - 1].y && gears[k].x - gears[k - 1].x == GearSpacing(cfg);
  }

  /** `result` agrees with `angles` outside the pair `(i, i + 1)`. */
  predicate SameOutside(result: seq<real>, angles: seq<real>, i: nat)
  {
    |result| == |angles| && forall k :: 0 <= k < |result| && k != i && k != i + 1 ==> result[k] == angles[k]
  }

  /** The first tier: keep rotating the second gear until no collision. */
  method AdvanceNeighborTier(test: GearTest, gears: seq<Gear>, angles: seq<real>, i: nat)
    returns (result: seq<real>, iteration: nat, ghost s: PairState)
    requires |angles| == |gears| && i + 1 < |gears|
    ensures SameOutside(result, angles, i) && s.iteration <= MAX_ITERATIONS
    ensures Run(PairTest(test, gears[i], gears[i + 1]), s) == Run(PairTest(test, gears[i], gears[i + 1]), Start(angles[i], angles[i + 1]))
    ensures iteration < MAX_ITERATIONS ==> s.settled && s.left == result[i] && s.right == result[i + 1]
    ensures iteration >= MAX_ITERATIONS ==>
              s == PairState(AdvanceNeighbor, MAX_ITERATIONS, false, result[i], result[i + 1], 0, MAX_ITERATIONS)
  {
    ghost var c := PairTest(test, gears[i], gears[i + 1]);
    s := Start(angles[i], angles[i + 1]);
    result := angles;
    iteration := 0;
    while iteration < MAX_ITERATIONS
      invariant iteration <= MAX_ITERATIONS && SameOutside(result, angles, i)
      invariant s == PairState(AdvanceNeighbor, iteration, false, result[i], result[i + 1], 0, iteration)
      invariant Run(c, s) == Run(c, Start(angles[i], angles[i + 1]))
    {
      if !test(gears[i], result[i], gears[i + 1], result[i + 1]) {
        s := Step(c, s);
        return;
      }
      s := Step(c, s);
      result := result[i + 1 := Advance(result[i + 1])];
      iteration := iteration + 1;
    }
  }

  /** The second tier: rotate the first gear instead. */
  method AdvanceSelfTier(test: GearTest, gears: seq<Gear>, angles: seq<real>, i: nat)
    returns (result: seq<real>, iteration: nat, ghost s: PairState)
    requires |angles| == |gears| && i + 1 < |gears|
    ensures SameOutside(result, angles, i) && s.iteration <= MAX_ITERATIONS
    ensures Run(PairTest(test, gears[i], gears[i + 1]), s)
         == Run(PairTest(test, gears[i], gears[i + 1]), PairState(AdvanceSelf, 0, false, angles[i], angles[i + 1], 0, MAX_ITERATIONS))
    ensures iteration < MAX_ITERATIONS ==> s.settled && s.left == result[i] && s.right == result[i + 1]
    ensures iteration >= MAX_ITERATIONS ==>
              s == PairState(AdvanceSelf, MAX_ITERATIONS, false, result[i], result[i + 1], MAX_ITERATIONS, MAX_ITERATIONS)
  {
    ghost var c := PairTest(test, gears[i], gears[i + 1]);
    s := PairState(AdvanceSelf, 0, false, angles[i], angles[i + 1], 0, MAX_ITERATIONS);
    ghost var s0 := s;
    result := angles;
    iteration := 0;
    while iteration < MAX_ITERATIONS
      invariant iteration <= MAX_ITERATIONS && SameOutside(result, angles, i)
      invariant s == PairState(AdvanceSelf, iteration, false, result[i], result[i + 1], iteration, MAX_ITERATIONS)
      invariant Run(c, s) == Run(c, s0)
    {
      if !test(gears[i], result[i], gears[i + 1], result[i + 1]) {
        s := Step(c, s);
        return;
      }
      s := Step(c, s);
      result := result[i := Advance(result[i])];
      iteration := iteration + 1;
    }
  }

  /** The last resort: alternate between the two gears, the second gear on
      even iterations; after 720 iterations the pair is left as it is. */
  method AlternateTier(test: GearTest, gears: seq<Gear>, angles: seq<real>, i: nat)
    returns (result: seq<real>, ghost s: PairState)
    requires |angles| == |gears| && i + 1 < |gears|
    ensures SameOutside(result, angles, i) && s.iteration <= MAX_ITERATIONS
    ensures Run(PairTest(test, gears[i], gears[i + 1]), s)
         == Run(PairTest(test, gears[i], gears[i + 1]),
                PairState(Alternate, 0, false, angles[i], angles[i + 1], MAX_ITERATIONS, MAX_ITERATIONS))
    ensures !Active(s) && s.left == result[i] && s.right == result[i + 1]
  {
    ghost var c := PairTest(test, gears[i], gears[i + 1]);
    s := PairState(Alternate, 0, false, angles[i], angles[i + 1], MAX_ITERATIONS, MAX_ITERATIONS);
    ghost var s0 := s;
    result := angles;
    for finalIter := 0 to MAX_ITERATIONS
      invariant SameOutside(result, angles, i)
      invariant s == PairState(Alternate, finalIter, false, result[i], result[i + 1],
                               MAX_ITERATIONS + finalIter / 2, MAX_ITERATIONS + (finalIter + 1) / 2)
      invariant Run(c, s) == Run(c, s0)
    {
      if !test(gears[i], result[i], gears[i + 1], result[i + 1]) {
        s := Step(c, s);
        return;
      }
      s := Step(c, s);
      if finalIter % 2 == 0 {
        result := result[i + 1 := Advance(result[i + 1])];
      } else {
        result := result[i := Advance(result[i])];
      }
    }
    s := Step(c, s);
  }

  /** One pair of `_initialize_angles_with_meshing`: the three tiers of the
      body of `for i in range(num_gears - 1)`, with `test` standing for
      `_check_teeth_collision`. */
  method ResolvePair(test: GearTest, gears: seq<Gear>, angles: seq<real>, i: nat) returns (result: seq<real>)
    requires |angles| == |gears| && i + 1 < |gears|
    ensures result == ApplyPair(test, gears, angles, i)
  {
    ghost var c := PairTest(test, gears[i], gears[i + 1]);
    ghost var target := Run(c, Start(angles[i], angles[i + 1]));
    var iteration;
    ghost var s;
    result, iteration, s := AdvanceNeighborTier(test, gears, angles, i);
    if iteration >= MAX_ITERATIONS {
      s := Step(c, s);
      var second;
      second, iteration, s := AdvanceSelfTier(test, gears, result, i);
      if iteration >= MAX_ITERATIONS {
        s := Step(c, s);
        var third;
        third, s := AlternateTier(test, gears, second, i);
        second := third;
      }
      result := second;
    }
    assert s == target;
    assert result == angles[i := target.left][i + 1 := target.right];
  }

  /** The first loop of `_initialize_angles_with_meshing`, which appends
      each gear's starting angle. */
  method SeedAngles(trig: Trig, gears: seq<Gear>, seed: real) returns (angles: seq<real>)
    ensures angles == InitialAngles(trig, gears, seed)
  {
    var toothAngleStep := 2.0 * PI / NUM_TEETH as real;
    angles := [];
    for i := 0 to |gears|
      invariant angles == InitialAngles(trig, gears, seed)[..i]
    {
      if i == 0 {
        angles := angles + [seed];
      } else {
        var prevGear, currGear := gears[i - 1], gears[i];
        var dx := (currGear.x - prevGear.x) as real;
        var dy := (currGear.y - prevGear.y) as real;
        var connectionAngle := trig.atan2(dy, dx);
        var initialAngle := connectionAngle + PI + toothAngleStep / 2.0;
        angles := angles + [initialAngle];
      }
    }
  }

  /** `_initialize_angles_with_meshing(gears, directions)` with the random
      draw `random.uniform(0, 2 * math.pi)` passed in as `seed` and
      `radius` standing for `config.gear_radius`.  The `directions` argument
      is not read by the source and is not modelled. */
  method InitializeAnglesWithMeshing(trig: Trig, radius: int, gears: seq<Gear>, seed: real) returns (angles: seq<real>)
    ensures |angles| == |gears|
    ensures angles == ResolveFrom(MeshTest(trig, radius), gears, InitialAngles(trig, gears, seed), 0)
  {
    var numGears := |gears|;
    angles := SeedAngles(trig, gears, seed);
    ghost var initial := angles;

    var test := MeshTest(trig, radius);
    var i := 0;
    while i + 1 < numGears
      invariant |angles| == numGears
      invariant ResolveFrom(test, gears, angles, i) == ResolveFrom(test, gears, initial, 0)
    {
      angles := ResolvePair(test, gears, angles, i);
      i := i + 1;
    }
  }
}
