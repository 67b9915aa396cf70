/** The facing-tooth collision test of `_check_teeth_collision`
    (src/generator.py).  Two gears collide when some tooth of the first that
    points within pi/2 of the direction to the second, and some tooth of the
    second that points within pi/2 of the direction to the first, have tips
    closer than `tooth_width * 1.5 = 12`.  The source scans the pairs with
    two nested loops and returns on the first hit; the scan below follows
    those loops and its contract is the existential it decides. */
module Collision {
  import opened Angles
  import opened Layout
  import opened Teeth

  /** `tooth_width * 1.5` */
  const MIN_SAFE_DISTANCE: real := TOOTH_WIDTH as real * 1.5

  /** `angle_diff <= math.pi / 2`: the tooth points roughly along `towards`. */
  predicate Faces(t: Tooth, towards: real)
  {
    FacingDiff(t.facing, towards) <= PI / 2.0
  }

  /** `math.sqrt((x1 - x2) ** 2 + (y1 - y2) ** 2)` */
  function TipDistance(trig: Trig, t1: Tooth, t2: Tooth): real
  {
    trig.sqrt((t1.tipX - t2.tipX) * (t1.tipX - t2.tipX) + (t1.tipY - t2.tipY) * (t1.tipY - t2.tipY))
  }

  /** A facing pair whose tips are too close. */
  predicate Clash(trig: Trig, t1: Tooth, towardsSecond: real, t2: Tooth, towardsFirst: real)
  {
    Faces(t1, towardsSecond) && Faces(t2, towardsFirst) && TipDistance(trig, t1, t2) < MIN_SAFE_DISTANCE
  }

  /** The inner loop over the second gear's teeth from index `j` on, for a
      tooth `t1` of the first gear that already faces the second gear. */
  function ScanSecond(trig: Trig, t1: Tooth, teeth2: seq<Tooth>, towardsFirst: real, j: nat): (hit: bool)
    requires j <= |teeth2|
    decreases |teeth2| - j
    ensures hit <==> exists k :: j <= k < |teeth2| &&
                       Faces(teeth2[k], towardsFirst) && TipDistance(trig, t1, teeth2[k]) < MIN_SAFE_DISTANCE
  {
    if j == |teeth2| then false
    else if FacingDiff(teeth2[j].facing, towardsFirst) > PI / 2.0 then ScanSecond(trig, t1, teeth2, towardsFirst, j + 1)
    else if TipDistance(trig, t1, teeth2[j]) < MIN_SAFE_DISTANCE then true
    else ScanSecond(trig, t1, teeth2, towardsFirst, j + 1)
  }

  /** The outer loop over the first gear's teeth from index `i` on. */
  function ScanFirst(trig: Trig, teeth1: seq<Tooth>, towardsSecond: real, teeth2: seq<Tooth>, towardsFirst: real, i: nat)
    : (hit: bool)
    requires i <= |teeth1|
    decreases |teeth1| - i
    ensures hit <==> exists a, b :: i <= a < |teeth1| && 0 <= b < |teeth2| &&
                       Clash(trig, teeth1[a], towardsSecond, teeth2[b], towardsFirst)
  {
    if i == |teeth1| then false
    else if FacingDiff(teeth1[i].facing, towardsSecond) > PI / 2.0 then
      ScanFirst(trig, teeth1, towardsSecond, teeth2, towardsFirst, i + 1)
    else if ScanSecond(trig, teeth1[i], teeth2, towardsFirst, 0) then true
    else ScanFirst(trig, teeth1, towardsSecond, teeth2, towardsFirst, i + 1)
  }

  /** `_check_teeth_collision(gear1, angle1, gear2, angle2)`, with `radius`
      standing for `config.gear_radius`. */
  function CheckTeethCollision(trig: Trig, radius: int, gear1: Gear, angle1: real, gear2: Gear, angle2: real)
    : (hit: bool)
    ensures hit <==> exists i, j :: 0 <= i < NUM_TEETH && 0 <= j < NUM_TEETH &&
                       Clash(trig, ToothAt(trig, gear1, angle1, radius, i), ConnectionAngle(trig, gear1, gear2),
                                   ToothAt(trig, gear2, angle2, radius, j), ConnectionAngle(trig, gear2, gear1))
  {
    var teeth1 := ToothPositions(trig, gear1, angle1, radius);
    var teeth2 := ToothPositions(trig, gear2, angle2, radius);
    var angleToSecond := trig.atan2((gear2.y - gear1.y) as real, (gear2.x - gear1.x) as real);
    var angleToFirst := trig.atan2((gear1.y - gear2.y) as real, (gear1.x - gear2.x) as real);
    ScanFirst(trig, teeth1, angleToSecond, teeth2, angleToFirst, 0)
  }

  /** The test does not depend on which gear is named first. */
  lemma CollisionSymmetric(trig: Trig, radius: int, gear1: Gear, angle1: real, gear2: Gear, angle2: real)
    ensures CheckTeethCollision(trig, radius, gear1, angle1, gear2, angle2)
         == CheckTeethCollision(trig, radius, gear2, angle2, gear1, angle1)
  {
    var to2, to1 := ConnectionAngle(trig, gear1, gear2), ConnectionAngle(trig, gear2, gear1);
    forall i, j | 0 <= i < NUM_TEETH && 0 <= j < NUM_TEETH
      ensures Clash(trig, ToothAt(trig, gear1, angle1, radius, i), to2, ToothAt(trig, gear2, angle2, radius, j), to1)
          == Clash(trig, ToothAt(trig, gear2, angle2, radius, j), to1, ToothAt(trig, gear1, angle1, radius, i), to2)
    {
      var t1, t2 := ToothAt(trig, gear1, angle1, radius, i), ToothAt(trig, gear2, angle2, radius, j);
      assert (t1.tipX - t2.tipX) * (t1.tipX - t2.tipX) == (t2.tipX - t1.tipX) * (t2.tipX - t1.tipX);
      assert (t1.tipY - t2.tipY) * (t1.tipY - t2.tipY) == (t2.tipY - t1.tipY) * (t2.tipY - t1.tipY);
    }
  }

  /** Only the angles modulo a full turn matter to the facing test: if the
      first gear is turned by whole turns, a tooth faces the second gear
      after the turn exactly when it did before. */
  lemma FacingIgnoresWholeTurns(t: Tooth, t': Tooth, towards: real)
    requires Congruent(t.facing, t'.facing)
    ensures Faces(t, towards) <==> Faces(t', towards)
  {
    assert (towards - towards) / TWO_PI == 0.0;
    FacingDiffCongruent(t.facing, towards, t'.facing, towards);
  }
}
