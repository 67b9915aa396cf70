/** The tooth model of `_get_tooth_positions` (src/generator.py): a gear of
    the chain has `NUM_TEETH` teeth, tooth `i` faces the direction
    `angle + 2*pi*i/12` and its tip lies `radius + tooth_length` from the
    centre along that direction.  The radius is the configured
    `gear_radius`, not the radius stored with the gear. */
module Teeth {
  import opened Angles
  import opened Layout

  /** `(tip_x, tip_y, tooth_angle)` */
  datatype Tooth = Tooth(tipX: real, tipY: real, facing: real)

  /** `2 * math.pi / num_teeth`: the angle between neighbouring teeth. */
  const TOOTH_STEP: real := TWO_PI / 12.0

  /** Tooth `i` of a gear centred at `gear` and turned by `angle`. */
  function ToothAt(trig: Trig, gear: Gear, angle: real, radius: int, i: nat): Tooth
  {
    var theta := angle + (2.0 * PI * i as real / NUM_TEETH as real);
    var reach := (radius + TOOTH_LENGTH) as real;
    Tooth(gear.x as real + reach * trig.cos(theta), gear.y as real + reach * trig.sin(theta), theta)
  }

  /** The first `n` teeth, in the order the `for i in range(num_teeth)` loop
      appends them. */
  function TeethUpTo(trig: Trig, gear: Gear, angle: real, radius: int, n: nat): (teeth: seq<Tooth>)
    ensures |teeth| == n
    ensures forall i :: 0 <= i < n ==> teeth[i] == ToothAt(trig, gear, angle, radius, i)
  {
    if n == 0 then [] else TeethUpTo(trig, gear, angle, radius, n - 1) + [ToothAt(trig, gear, angle, radius, n - 1)]
  }

  /** `_get_tooth_positions(gear, angle)`, with `radius` standing for
      `config.gear_radius`. */
  function ToothPositions(trig: Trig, gear: Gear, angle: real, radius: int): (teeth: seq<Tooth>)
    ensures |teeth| == NUM_TEETH
    ensures forall i :: 0 <= i < NUM_TEETH ==>
              teeth[i].facing == angle + 2.0 * PI * i as real / 12.0
    ensures forall i :: 0 <= i < NUM_TEETH ==> teeth[i] == ToothAt(trig, gear, angle, radius, i)
  {
    TeethUpTo(trig, gear, angle, radius, NUM_TEETH)
  }

  /** Neighbouring teeth are one tooth step apart, and tooth `i + 12` would
      face where tooth `i` does, one full turn on. */
  lemma ToothSpacing(trig: Trig, gear: Gear, angle: real, radius: int, i: nat)
    ensures ToothAt(trig, gear, angle, radius, i + 1).facing == ToothAt(trig, gear, angle, radius, i).facing + TOOTH_STEP
    ensures ToothAt(trig, gear, angle, radius, i + NUM_TEETH).facing == ToothAt(trig, gear, angle, radius, i).facing + TWO_PI
  {
  }

  /** Where cos and sin satisfy the Pythagorean identity, every tip lies on
      the circle of radius `radius + tooth_length` about the gear's centre. */
  lemma TipOnReachCircle(trig: Trig, gear: Gear, angle: real, radius: int, i: nat)
    requires var theta := ToothAt(trig, gear, angle, radius, i).facing;
             trig.cos(theta) * trig.cos(theta) + trig.sin(theta) * trig.sin(theta) == 1.0
    ensures var t := ToothAt(trig, gear, angle, radius, i);
            var reach := (radius + TOOTH_LENGTH) as real;
            (t.tipX - gear.x as real) * (t.tipX - gear.x as real) + (t.tipY - gear.y as real) * (t.tipY - gear.y as real)
              == reach * reach
  {
    var t := ToothAt(trig, gear, angle, radius, i);
    var reach := (radius + TOOTH_LENGTH) as real;
    var c, s := trig.cos(t.facing), trig.sin(t.facing);
    assert t.tipX - gear.x as real == reach * c;
    assert t.tipY - gear.y as real == reach * s;
    assert (reach * c) * (reach * c) + (reach * s) * (reach * s) == reach * reach * (c * c + s * s);
  }

  /** The stored radius of a gear plays no part: the teeth depend on the
      gear's centre and the configured radius only. */
  lemma TeethIgnoreStoredRadius(trig: Trig, gear: Gear, angle: real, radius: int, stored: int)
    ensures ToothPositions(trig, gear, angle, radius) == ToothPositions(trig, gear.(radius := stored), angle, radius)
  {
    var a, b := ToothPositions(trig, gear, angle, radius), ToothPositions(trig, gear.(radius := stored), angle, radius);
    forall i | 0 <= i < NUM_TEETH
      ensures a[i] == b[i]
    {
    }
  }
}
