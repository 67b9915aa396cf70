/** The chain layout of `_generate_task_data` (src/generator.py): the
    configured constants, the alternating spin directions with their parity
    rule, and the gear centres placed along one of four lines.

    Horizontal and vertical layouts are integer arithmetic with Python's
    floor division `//`; for a positive divisor that is Dafny's `/` on `int`.
    Diagonal layouts divide by the float `math.sqrt(2)`, floor-divide a float
    and truncate with `int(...)`; the model writes those steps out on reals. */
module Layout {
  import opened Angles

  /** The constants fixed in `TaskGenerator.__init__`. */
  const NUM_TEETH: nat := 12
  const TOOTH_LENGTH: int := 15
  const TOOTH_WIDTH: int := 8

  /** `math.sqrt(2)`, as the decimal the float prints as. */
  const SQRT_2: real := 1.4142135623730951

  /** The settings the core reads from `TaskConfig`. */
  datatype Config = Config(
    imageWidth: int,
    imageHeight: int,
    minGears: int,
    maxGears: int,
    gearRadius: int,
    gearGap: int)

  /** `TaskConfig`'s defaults: 512x512 image, 3 to 6 gears, radius 40, gap -8. */
  const DEFAULT_CONFIG: Config := Config(512, 512, 3, 6, 40, -8)

  datatype Direction = Clockwise | Counterclockwise

  datatype LineType = Horizontal | Vertical | DiagonalDown | DiagonalUp

  /** A gear's centre and radius, as `{"x": .., "y": .., "radius": ..}`. */
  datatype Gear = Gear(x: int, y: int, radius: int)

  /** `"counterclockwise" if d == "clockwise" else "clockwise"` */
  function Opposite(d: Direction): (e: Direction)
    ensures e != d
  {
    if d == Clockwise then Counterclockwise else Clockwise
  }

  /** Python's `a // b` for a positive divisor: the floor of the quotient. */
  function FloorDiv(a: int, b: int): (q: int)
    requires b > 0
    ensures b * q <= a < b * q + b
  {
    a / b
  }

  /** Floor division of a float by 2, `x // 2`, which yields a whole float. */
  function HalfFloor(x: real): (r: real)
    ensures r <= x / 2.0 < r + 1.0
    ensures r.Floor as real == r
  {
    (x / 2.0).Floor as real
  }

  /** Python's `int(x)`: truncation toward zero. */
  function Trunc(x: real): (n: int)
    ensures 0.0 <= x ==> 0 <= n && n as real <= x < n as real + 1.0
    ensures x < 0.0 ==> n <= 0 && n as real - 1.0 < x <= n as real
  {
    if x >= 0.0 then x.Floor else -((-x).Floor)
  }

  lemma TruncMonotone(x: real, y: real)
    requires x <= y
    ensures Trunc(x) <= Trunc(y)
  {
  }

  /** `gear_radius * 2 + tooth_length * 2 + gear_gap` */
  function GearSpacing(cfg: Config): int
  {
    cfg.gearRadius * 2 + TOOTH_LENGTH * 2 + cfg.gearGap
  }

  /** With the defaults adjacent centres are 102 pixels apart. */
  lemma DefaultSpacing()
    ensures GearSpacing(DEFAULT_CONFIG) == 102
  {
  }

  /** The angle of the line from `a`'s centre to `b`'s, `atan2(dy, dx)`. */
  function ConnectionAngle(trig: Trig, a: Gear, b: Gear): real
  {
    trig.atan2((b.y - a.y) as real, (b.x - a.x) as real)
  }

  // ---------------------------------------------------------------------
  // Directions

  /** The direction list of `_generate_task_data`: entry `i` is the first
      direction exactly when `i` is even. */
  ghost predicate Alternates(directions: seq<Direction>, first: Direction)
  {
    forall i :: 0 <= i < |directions| ==> (directions[i] == first <==> i % 2 == 0)
  }

  /** Alternation as stated by the parity rule means neighbours differ. */
  lemma AlternatingNeighboursDiffer(directions: seq<Direction>, first: Direction, i: nat)
    requires Alternates(directions, first)
    requires i + 1 < |directions|
    ensures directions[i] != directions[i + 1]
  {
    assert (i % 2 == 0) != ((i + 1) % 2 == 0);
  }

  /** The `for i in range(num_gears)` loop that appends `first_direction` at
      even positions and the opposite direction at odd ones. */
  method AssignDirections(numGears: nat, first: Direction) returns (directions: seq<Direction>)
    ensures |directions| == numGears
    ensures Alternates(directions, first)
    ensures forall i :: 0 <= i < numGears - 1 ==> directions[i] != directions[i + 1]
  {
    directions := [];
    for i := 0 to numGears
      invariant |directions| == i
      invariant Alternates(directions, first)
    {
      if i % 2 == 0 {
        directions := directions + [first];
      } else {
        directions := directions + [Opposite(first)];
      }
    }
    forall i | 0 <= i < numGears - 1
      ensures directions[i] != directions[i + 1]
    {
      AlternatingNeighboursDiffer(directions, first, i);
    }
  }

  /** `last_direction`, computed from the parity of the gear count alone. */
  function LastDirection(numGears: int, first: Direction): Direction
  {
    if numGears % 2 == 1 then first else Opposite(first)
  }

  /** The parity rule agrees with the direction list: the last direction is
      the direction of the last gear, and it is the first direction exactly
      when the count is odd. */
  lemma LastDirectionIsLastGear(directions: seq<Direction>, first: Direction)
    requires Alternates(directions, first)
    requires |directions| >= 1
    ensures LastDirection(|directions|, first) == directions[|directions| - 1]
    ensures LastDirection(|directions|, first) == first <==> |directions| % 2 == 1
  {
    var n := |directions|;
    assert (n - 1) % 2 == 0 <==> n % 2 == 1;
  }

  // ---------------------------------------------------------------------
  // Centres

  /** `(extent - (n - 1) * spacing) // 2`: where a straight chain starts. */
  function StraightStart(extent: int, numGears: nat, spacing: int): int
  {
    FloorDiv(extent - (numGears - 1) * spacing, 2)
  }

  /** `gear_spacing / math.sqrt(2)`: the per-axis step of a diagonal chain. */
  function DiagonalStep(cfg: Config): real
  {
    GearSpacing(cfg) as real / SQRT_2
  }

  /** `int(start + i * step)`: a truncated coordinate along a diagonal. */
  function DiagonalCoord(start: real, step: real, i: nat): int
  {
    Trunc(start + i as real * step)
  }

  /** `int(start - i * step)`: the receding coordinate of a rising diagonal. */
  function DiagonalCoordDown(start: real, step: real, i: nat): int
  {
    Trunc(start - i as real * step)
  }

  /** `(extent - total_diag) // 2` and `(extent + total_diag) // 2` */
  function DiagonalStart(extent: int, numGears: nat, step: real, rising: bool): real
  {
    var total := (numGears - 1) as real * step;
    if rising then HalfFloor(extent as real + total) else HalfFloor(extent as real - total)
  }

  /** The centre of gear `i` for each line type, as the four branches of
      `_generate_task_data` compute it. */
  function CenterAt(cfg: Config, numGears: nat, line: LineType, i: nat): Gear
  {
    var spacing := GearSpacing(cfg);
    match line
    case Horizontal =>
      Gear(StraightStart(cfg.imageWidth, numGears, spacing) + i * spacing,
           FloorDiv(cfg.imageHeight, 2), cfg.gearRadius)
    case Vertical =>
      Gear(FloorDiv(cfg.imageWidth, 2),
           StraightStart(cfg.imageHeight, numGears, spacing) + i * spacing, cfg.gearRadius)
    case DiagonalDown =>
      var step := DiagonalStep(cfg);
      Gear(DiagonalCoord(DiagonalStart(cfg.imageWidth, numGears, step, false), step, i),
           DiagonalCoord(DiagonalStart(cfg.imageHeight, numGears, step, false), step, i),
           cfg.gearRadius)
    case DiagonalUp =>
      var step := DiagonalStep(cfg);
      Gear(DiagonalCoord(DiagonalStart(cfg.imageWidth, numGears, step, false), step, i),
           DiagonalCoordDown(DiagonalStart(cfg.imageHeight, numGears, step, true), step, i),
           cfg.gearRadius)
  }

  lemma DiagonalCoordMonotone(start: real, step: real, i: nat)
    requires step >= 0.0
    ensures DiagonalCoord(start, step, i) <= DiagonalCoord(start, step, i + 1)
    ensures DiagonalCoordDown(start, step, i + 1) <= DiagonalCoordDown(start, step, i)
  {
    assert (i + 1) as real * step == i as real * step + step;
    TruncMonotone(start + i as real * step, start + (i + 1) as real * step);
    TruncMonotone(start - (i + 1) as real * step, start - i as real * step);
  }

  /** The four placement loops of `_generate_task_data`. */
  method PlaceCenters(cfg: Config, numGears: nat, line: LineType) returns (gears: seq<Gear>)
    ensures |gears| == numGears
    ensures forall i :: 0 <= i < numGears ==> gears[i] == CenterAt(cfg, numGears, line, i)
  {
    var width, height := cfg.imageWidth, cfg.imageHeight;
    var gearRadius := cfg.gearRadius;
    var gearSpacing := gearRadius * 2 + TOOTH_LENGTH * 2 + cfg.gearGap;
    gears := [];
    match line {
      case Horizontal =>
        var totalWidth := (numGears - 1) * gearSpacing;
        var startX := (width - totalWidth) / 2;
        for i := 0 to numGears
          invariant |gears| == i
          invariant forall k :: 0 <= k < i ==> gears[k] == CenterAt(cfg, numGears, line, k)
        {
          var x := startX + i * gearSpacing;
          var y := height / 2;
          assert Gear(x, y, gearRadius) == CenterAt(cfg, numGears, line, i);
          gears := gears + [Gear(x, y, gearRadius)];
        }
      case Vertical =>
        var totalHeight := (numGears - 1) * gearSpacing;
        var startY := (height - totalHeight) / 2;
        for i := 0 to numGears
          invariant |gears| == i
          invariant forall k :: 0 <= k < i ==> gears[k] == CenterAt(cfg, numGears, line, k)
        {
          var x := width / 2;
          var y := startY + i * gearSpacing;
          assert Gear(x, y, gearRadius) == CenterAt(cfg, numGears, line, i);
          gears := gears + [Gear(x, y, gearRadius)];
        }
      case DiagonalDown =>
        var spacingXY := gearSpacing as real / SQRT_2;
        var startX := DiagonalStart(width, numGears, spacingXY, false);
        var startY := DiagonalStart(height, numGears, spacingXY, false);
        gears := PlaceDiagonal(numGears, startX, startY, spacingXY, false, gearRadius);
      case DiagonalUp =>
        var spacingXY := gearSpacing as real / SQRT_2;
        var startX := DiagonalStart(width, numGears, spacingXY, false);
        var startY := DiagonalStart(height, numGears, spacingXY, true);
        gears := PlaceDiagonal(numGears, startX, startY, spacingXY, true, gearRadius);
    }
  }

  /** The loops of the two diagonal branches: x advances by `step`, y
      advances by `step` (falling line) or retreats by it (rising line), and
      both are truncated with `int(...)`. */
  method PlaceDiagonal(numGears: nat, startX: real, startY: real, step: real, rising: bool, gearRadius: int)
    returns (gears: seq<Gear>)
    ensures |gears| == numGears
    ensures forall k :: 0 <= k < numGears ==>
              gears[k] == Gear(DiagonalCoord(startX, step, k),
                               if rising then DiagonalCoordDown(startY, step, k) else DiagonalCoord(startY, step, k),
                               gearRadius)
  {
    gears := [];
    for i := 0 to numGears
      invariant |gears| == i
      invariant forall k :: 0 <= k < i ==>
                  gears[k] == Gear(DiagonalCoord(startX, step, k),
                                   if rising then DiagonalCoordDown(startY, step, k) else DiagonalCoord(startY, step, k),
                                   gearRadius)
    {
      var x := startX + i as real * step;
      var y := if rising then startY - i as real * step else startY + i as real * step;
      assert Trunc(x) == DiagonalCoord(startX, step, i);
      assert Trunc(y) == if rising then DiagonalCoordDown(startY, step, i) else DiagonalCoord(startY, step, i);
      gears := gears + [Gear(Trunc(x), Trunc(y), gearRadius)];
    }
  }

  /** Every gear of a horizontal chain sits at `height // 2` and carries
      the configured radius. */
  lemma HorizontalRow(cfg: Config, numGears: nat, i: nat)
    requires i < numGears
    ensures 2 * CenterAt(cfg, numGears, Horizontal, i).y <= cfg.imageHeight < 2 * CenterAt(cfg, numGears, Horizontal, i).y + 2
    ensures CenterAt(cfg, numGears, Horizontal, i).radius == cfg.gearRadius
  {
  }

  /** Along a horizontal line consecutive centres are exactly one spacing
      apart in x and level in y. */
  lemma HorizontalSpacing(cfg: Config, numGears: nat, i: nat)
    requires i + 1 < numGears
    ensures CenterAt(cfg, numGears, Horizontal, i + 1).x - CenterAt(cfg, numGears, Horizontal, i).x == GearSpacing(cfg)
    ensures CenterAt(cfg, numGears, Horizontal, i).y == CenterAt(cfg, numGears, Horizontal, i + 1).y
  {
    var s := GearSpacing(cfg);
    assert (i + 1) * s == i * s + s;
  }

  /** Every gear of a vertical chain sits at `width // 2` and carries the
      configured radius. */
  lemma VerticalColumn(cfg: Config, numGears: nat, i: nat)
    requires i < numGears
    ensures 2 * CenterAt(cfg, numGears, Vertical, i).x <= cfg.imageWidth < 2 * CenterAt(cfg, numGears, Vertical, i).x + 2
    ensures CenterAt(cfg, numGears, Vertical, i).radius == cfg.gearRadius
  {
  }

  /** The vertical counterpart: one spacing apart in y, x fixed. */
  lemma VerticalSpacing(cfg: Config, numGears: nat, i: nat)
    requires i + 1 < numGears
    ensures CenterAt(cfg, numGears, Vertical, i + 1).y - CenterAt(cfg, numGears, Vertical, i).y == GearSpacing(cfg)
    ensures CenterAt(cfg, numGears, Vertical, i).x == CenterAt(cfg, numGears, Vertical, i + 1).x
  {
    var s := GearSpacing(cfg);
    assert (i + 1) * s == i * s + s;
  }

  /** A straight chain is centred: the margin after the last centre equals
      the margin before the first one, or exceeds it by one pixel because
      `//` rounds down. */
  lemma HorizontalCentred(cfg: Config, numGears: nat)
    requires numGears >= 1
    ensures var first := CenterAt(cfg, numGears, Horizontal, 0).x;
            var last := CenterAt(cfg, numGears, Horizontal, numGears - 1).x;
            0 <= (cfg.imageWidth - last) - first <= 1
  {
  }

  lemma VerticalCentred(cfg: Config, numGears: nat)
    requires numGears >= 1
    ensures var first := CenterAt(cfg, numGears, Vertical, 0).y;
            var last := CenterAt(cfg, numGears, Vertical, numGears - 1).y;
            0 <= (cfg.imageHeight - last) - first <= 1
  {
  }

  /** With a square image every gear of a top-left to bottom-right chain
      lies on the image's main diagonal, whatever the spacing. */
  lemma DiagonalDownOnDiagonal(cfg: Config, numGears: nat, i: nat)
    requires i < numGears
    requires cfg.imageWidth == cfg.imageHeight
    ensures CenterAt(cfg, numGears, DiagonalDown, i).x == CenterAt(cfg, numGears, DiagonalDown, i).y
  {
  }

  /** With a non-negative spacing a top-left to bottom-right chain moves
      right and down from gear to gear.  No claim is made about the
      Euclidean distance, which the float division and truncation perturb. */
  lemma DiagonalDownShape(cfg: Config, numGears: nat, i: nat)
    requires i + 1 < numGears
    requires GearSpacing(cfg) >= 0
    ensures CenterAt(cfg, numGears, DiagonalDown, i).x <= CenterAt(cfg, numGears, DiagonalDown, i + 1).x
    ensures CenterAt(cfg, numGears, DiagonalDown, i).y <= CenterAt(cfg, numGears, DiagonalDown, i + 1).y
  {
    var step := DiagonalStep(cfg);
    DiagonalCoordMonotone(DiagonalStart(cfg.imageWidth, numGears, step, false), step, i);
    DiagonalCoordMonotone(DiagonalStart(cfg.imageHeight, numGears, step, false), step, i);
  }

  /** A bottom-left to top-right chain moves right and up (y decreases). */
  lemma DiagonalUpShape(cfg: Config, numGears: nat, i: nat)
    requires i + 1 < numGears
    requires GearSpacing(cfg) >= 0
    ensures CenterAt(cfg, numGears, DiagonalUp, i).x <= CenterAt(cfg, numGears, DiagonalUp, i + 1).x
    ensures CenterAt(cfg, numGears, DiagonalUp, i + 1).y <= CenterAt(cfg, numGears, DiagonalUp, i).y
  {
    var step := DiagonalStep(cfg);
    DiagonalCoordMonotone(DiagonalStart(cfg.imageWidth, numGears, step, false), step, i);
    DiagonalCoordMonotone(DiagonalStart(cfg.imageHeight, numGears, step, true), step, i);
  }

  /** Three gears on a horizontal line with the defaults sit at x = 154,
      256, 358 and y = 256. */
  lemma DefaultHorizontalThreeGears()
    ensures CenterAt(DEFAULT_CONFIG, 3, Horizontal, 0) == Gear(154, 256, 40)
    ensures CenterAt(DEFAULT_CONFIG, 3, Horizontal, 1) == Gear(256, 256, 40)
    ensures CenterAt(DEFAULT_CONFIG, 3, Horizontal, 2) == Gear(358, 256, 40)
  {
  }
}
