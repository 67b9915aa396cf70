# Gear-chain geometry, modelled in Dafny

This project models the geometry engine of the gear-chain puzzle generator, `TaskGenerator` in
`src/generator.py`. One puzzle is a chain of 3 to 6 gears, each with twelve teeth and one green tooth.
The question is which way the last gear turns when the first gear turns. The engine does the following:

- It draws the gear count and the first gear's direction. Directions alternate along the chain, and the
  last gear's direction follows from the parity of the count.
- It places the gear centres along a horizontal, vertical, falling-diagonal or rising-diagonal line,
  using a spacing derived from the gear radius, the tooth length and the configured gap.
- It gives every gear a starting angle. Then it resolves tooth collisions pair by pair, with a bounded
  three-tier search in half-degree steps. The collision test asks whether two teeth that face each
  other have tips closer than 12 pixels.
- It searches, in one-degree steps over two full turns, for a rotation that brings the two last green
  teeth onto the line joining their centres. It falls back to pi/3 when no rotation is accepted.
- It renders each gear turned by `+offset` when its index is even and by `-offset` when it is odd.

The model has seven modules:

| module | file | what it holds |
|---|---|---|
| `Angles` | `angles.dfy` | Real-valued angle arithmetic: Python's `% (2 * math.pi)`, and the two ways the source folds an angular difference into [0, pi]. `cos`, `sin`, `atan2` and `sqrt` are supplied as a `Trig` value. |
| `Layout` | `layout.dfy` | The configured constants, the direction list and the parity rule, and the four centre-placement loops. |
| `Teeth` | `teeth.dfy` | `_get_tooth_positions`. |
| `Collision` | `collision.dfy` | `_check_teeth_collision`, proved equal to the existential it decides. |
| `Meshing` | `meshing.dfy` | `_initialize_angles_with_meshing`. |
| `Alignment` | `alignment.dfy` | `_calculate_180_degree_rotation` and the render sign rule of `_render_gears`. |
| `TaskData` | `task_data.dfy` | `_generate_task_data`, which puts the other modules together. |

In `Meshing`, each adjacent pair is specified by a small state machine (`Step`, `Run`). Its states are
the tiers `AdvanceNeighbor`, `AdvanceSelf` and `Alternate`, plus `Exhausted`, and a flag records a
`break`. The three source loops (`AdvanceNeighborTier`, `AdvanceSelfTier`, `AlternateTier`) are proved
to reach the state the machine reaches. The chain of pairs is processed left to right (`ResolveFrom`).

The solver's result is a `Solution` that records which of the three returns was taken: `TooFewGears`,
`Found(k)` or `Fallback`. `Offset` turns it into the float the source returns.

## Model

| member | source | states |
|---|---|---|
| `Angles.Mod2Pi` | src/generator.py:355-357 | Python's `x % (2 * math.pi)` lies in [0, 2pi). |
| `Angles.Mod2PiCongruentSelf` | src/generator.py:355-357 | The remainder differs from `x` by a whole number of turns. |
| `Angles.Mod2PiUnique` | src/generator.py:355-357 | The remainder is the only value in [0, 2pi) congruent to `x`. |
| `Angles.Mod2PiCongruent` | src/generator.py:355-357 | Two angles have the same remainder exactly when they differ by whole turns. |
| `Angles.Mod2PiAddLeft` | src/generator.py:272-273 | Reducing before a further addition changes nothing: `(x % 2pi + s) % 2pi == (x + s) % 2pi`. |
| `Angles.RotatedIsShift` | src/generator.py:272-273 | `k >= 1` repeated steps of `x = (x + step) % 2pi` equal one reduction of `x + k * step`. |
| `Angles.FacingDiff` | src/generator.py:193-195 | The collision test's fold `abs((a - b + pi) % 2pi - pi)` lies in [0, pi]. |
| `Angles.CircularDiff` | src/generator.py:360-368 | The solver's fold (`2pi - d` when `d > pi`) is at most pi, and is non-negative when `abs(a - b) <= 2pi`. |
| `Angles.CircularDiffRange` | src/generator.py:354-368 | On angles normalised to [0, 2pi), the solver's folded difference lies in [0, pi]. |
| `Angles.FacingDiffCongruent` | src/generator.py:193-195 | The collision test's fold depends only on the two angles modulo 2pi. |
| `Angles.FoldsAgreeNormalised` | src/generator.py:193-195 | On normalised angles, the two folds of the source are the same function. |
| `Angles.FoldsAgree` | src/generator.py:193-195 | For all angles, the collision fold equals the solver's fold applied to the normalised angles. |
| `Layout.Opposite` | src/generator.py:127-131 | The opposite direction always differs from the given one. |
| `Layout.FloorDiv` | src/generator.py:88 | Python's `a // b` with `b > 0` is the floor of the quotient: `b*q <= a < b*q + b`. |
| `Layout.HalfFloor` | src/generator.py:105-106 | The float `x // 2` is a whole number `r` with `r <= x/2 < r + 1`. |
| `Layout.Trunc` | src/generator.py:110 | `int(x)` truncates toward zero, for both signs. |
| `Layout.TruncMonotone` | src/generator.py:108-110 | `int(...)` never reverses the order of two values. |
| `Layout.GearSpacing` | src/generator.py:82 | Definition, no contract: `gear_radius * 2 + tooth_length * 2 + gear_gap`. |
| `Layout.DefaultSpacing` | src/generator.py:82 | With radius 40 and gap -8, adjacent centres are 102 pixels apart. |
| `Layout.AlternatingNeighboursDiffer` | src/generator.py:122-131 | Under the parity rule, adjacent gears have different directions. |
| `Layout.AssignDirections` | src/generator.py:122-131 | The list has `num_gears` entries. Entry `i` is the first direction exactly when `i` is even, and adjacent entries differ. |
| `Layout.LastDirection` | src/generator.py:67-72 | Definition, no contract: the first direction when the count is odd, its opposite otherwise. Related to the direction list by `Layout.LastDirectionIsLastGear`. |
| `Layout.LastDirectionIsLastGear` | src/generator.py:67-72 | `last_direction` is the direction of the last gear, and it equals the first direction exactly when the count is odd. |
| `Layout.CenterAt` | src/generator.py:84-120 | Definition, no contract: the centre of gear `i` in each of the four branches, with `//` as `FloorDiv`/`HalfFloor` and `int()` as `Trunc`. `Layout.PlaceCenters` is proved to compute it. |
| `Layout.PlaceCenters` | src/generator.py:84-120 | The four placement loops give exactly `num_gears` gears, gear `i` at the centre the branch for the line type defines. |
| `Layout.PlaceDiagonal` | src/generator.py:102-120 | The diagonal loops place gear `k` at `int(start + k*step)` on each axis. On a rising line the y axis uses `int(start - k*step)`. |
| `Layout.HorizontalRow` | src/generator.py:89-92 | Every gear of a horizontal chain, the last one too, sits at `height // 2` and has the configured radius. |
| `Layout.HorizontalSpacing` | src/generator.py:86-92 | Consecutive centres are exactly one spacing apart in x and have the same y. |
| `Layout.VerticalColumn` | src/generator.py:97-100 | Every gear of a vertical chain, the last one too, sits at `width // 2` and has the configured radius. |
| `Layout.VerticalSpacing` | src/generator.py:94-100 | Consecutive centres are exactly one spacing apart in y and have the same x. |
| `Layout.HorizontalCentred` | src/generator.py:87-90 | The horizontal chain is centred: the two margins are equal, or the right one is one pixel larger. |
| `Layout.VerticalCentred` | src/generator.py:95-99 | The vertical chain is centred in the same sense. |
| `Layout.DiagonalDownOnDiagonal` | src/generator.py:102-110 | On a square image every gear of the falling chain, whatever the spacing, lies on the main diagonal (`x == y`). |
| `Layout.DiagonalDownShape` | src/generator.py:102-110 | With a non-negative spacing the falling chain moves right and down from each gear to the next. |
| `Layout.DiagonalUpShape` | src/generator.py:112-120 | With a non-negative spacing the rising chain moves right and up from each gear to the next. |
| `Layout.ConnectionAngle` | src/generator.py:183-185 | Definition, no contract: `atan2(dy, dx)` from one centre to the other, as written again at lines 247-249 and 326-328. |
| `Layout.DefaultHorizontalThreeGears` | src/generator.py:82-92 | With the defaults, three horizontal gears sit at x = 154, 256 and 358, with y = 256 and radius 40. |
| `Teeth.ToothAt` | src/generator.py:165-168 | Definition, no contract: tooth `i` faces `angle + 2*pi*i/12` and its tip lies `radius + 15` from the centre along that angle. Its properties are `Teeth.ToothSpacing` and `Teeth.TipOnReachCircle`. |
| `Teeth.TeethUpTo` | src/generator.py:164-168 | The loop appends tooth `i` as its `i`-th element. |
| `Teeth.ToothPositions` | src/generator.py:157-170 | Exactly 12 teeth. Tooth `i` faces `angle + 2*pi*i/12` and is the tooth `ToothAt` defines. |
| `Teeth.ToothSpacing` | src/generator.py:165 | Neighbouring teeth are 2pi/12 apart, and tooth `i + 12` would face where tooth `i` does, one turn on. |
| `Teeth.TipOnReachCircle` | src/generator.py:166-167 | Given the Pythagorean identity for `cos`/`sin`, every tip lies at distance `radius + 15` from the centre. |
| `Teeth.TeethIgnoreStoredRadius` | src/generator.py:161 | The teeth use the configured `gear_radius`, whatever radius is stored with the gear. |
| `Collision.Faces` | src/generator.py:192-199 | Definition, no contract: a tooth faces the other gear when the collision fold of its angle and the direction to that gear is at most pi/2, so the `continue` is not taken. |
| `Collision.TipDistance` | src/generator.py:214 | Definition, no contract: the Euclidean distance of the two tips, through the `sqrt` parameter. |
| `Collision.ScanSecond` | src/generator.py:201-217 | The inner loop returns true exactly when some tooth of the second gear, from index `j` on, faces the first gear and has its tip closer than 12. |
| `Collision.ScanFirst` | src/generator.py:190-219 | The nested loops return true exactly when some pair of teeth clashes. |
| `Collision.CheckTeethCollision` | src/generator.py:172-219 | A collision is reported exactly when some tooth of gear 1 within pi/2 of the direction to gear 2, and some tooth of gear 2 within pi/2 of the direction to gear 1, have tips closer than `8 * 1.5`. |
| `Collision.CollisionSymmetric` | src/generator.py:172-219 | The test gives the same answer whichever gear is named first. |
| `Collision.FacingIgnoresWholeTurns` | src/generator.py:193-198 | The facing test is unchanged when a tooth's angle moves by whole turns. |
| `Meshing.Advance` | src/generator.py:272-273 | One adjustment `a = (a + pi/360) % 2pi` lands in [0, 2pi). |
| `Meshing.AdvanceTimesIsShift` | src/generator.py:272-273 | `k >= 1` adjustments add `k * pi/360` and reduce once modulo 2pi. |
| `Meshing.Step` | src/generator.py:264-303 | One loop iteration decreases the termination measure, and keeps the per-tier adjustment counts. A `break` is taken only when the pair does not collide. Each angle is either unchanged or advanced once. |
| `Meshing.Run` | src/generator.py:260-303 | The pair always ends, by a `break` or by exhausting the third tier. The counts are kept, and a `break` state means no collision. |
| `Meshing.RunTracksAdjustments` | src/generator.py:264-303 | Each final angle is its starting angle advanced once per adjustment it received. |
| `Meshing.ResolvePairFacts` | src/generator.py:260-303 | For one pair: it ends by a `break` or exhaustion, and after a `break` it does not collide. It makes at most 3 * 720 adjustments. Gear `i` is untouched if the first tier breaks early. Exhaustion means 1080 adjustments for each gear. A pair that starts collision-free is left unchanged. |
| `Meshing.ApplyPair` | src/generator.py:260-303 | Processing pair `i` changes only `angles[i]` and `angles[i + 1]`. |
| `Meshing.ResolveFrom` | src/generator.py:260-303 | Processing the remaining pairs keeps the list length. |
| `Meshing.ResolveFromKeepsEarlier` | src/generator.py:260-303 | Pairs are processed in increasing `i`: pairs from `i` on never touch a gear before `i`. |
| `Meshing.ApplyPairOutcome` | src/generator.py:260-303 | In the chain, after a `break` pair `i` does not collide. Both angles move in pi/360 steps, at most 3 * 720 of them, and `angles[i]` is untouched when the first tier breaks before 720. |
| `Meshing.InitialAngles` | src/generator.py:237-253 | There is one starting angle per gear, and the first is the random seed. |
| `Meshing.HorizontalInitialAngles` | src/generator.py:244-252 | On a horizontal chain, with `atan2(0, dx) == 0` for `dx > 0`, every later gear starts at pi + pi/12. |
| `Meshing.AdvanceNeighborTier` | src/generator.py:261-274 | The first `while` loop reaches the state-machine state for its tier and changes only the pair. |
| `Meshing.AdvanceSelfTier` | src/generator.py:277-288 | The second `while` loop reaches the state-machine state for its tier and changes only the pair. |
| `Meshing.AlternateTier` | src/generator.py:291-303 | The `for final_iter` loop ends the pair in a `break` or exhausted state and changes only the pair. |
| `Meshing.ResolvePair` | src/generator.py:260-303 | The three tiers for pair `i` compute `ApplyPair`. |
| `Meshing.SeedAngles` | src/generator.py:234-253 | The first loop builds exactly `InitialAngles`. |
| `Meshing.InitializeAnglesWithMeshing` | src/generator.py:221-305 | The result has one angle per gear and is the starting angles with every pair processed in turn. |
| `Alignment.GearRotation` | src/generator.py:344-352 | Definition, no contract: `base + offset` for an even index, `base - offset` for an odd one, the same rule as the render loop at lines 520-523. |
| `Alignment.MarkedAngle` | src/generator.py:331-336 | Definition, no contract: `base + green * 2 * pi / 12`. |
| `Alignment.TargetOf` | src/generator.py:319-336 | Definition, no contract: the indices `num_gears - 2` and `num_gears - 1`, the connection angle between those gears, and the two marked-tooth angles before rotation. |
| `Alignment.Aligned` | src/generator.py:343-371 | Definition, no contract: the acceptance test of one candidate. Both angles are turned by the sign rule and normalised, then folded against the normalised connection angle and its opposite, each `< 0.05`. |
| `Alignment.Offset` | src/generator.py:316-375 | Definition, no contract: the float each `return` gives, 0, `k * pi/180` or pi/3. Its range is `Alignment.OffsetRange`. |
| `Alignment.SearchFrom` | src/generator.py:342-372 | The scan from `k` returns the least accepted candidate. It returns the fallback exactly when no candidate from `k` on is accepted. |
| `Alignment.Calculate180DegreeRotation` | src/generator.py:307-375 | It returns 0 exactly when `num_gears < 2`. Otherwise it returns the least `k < 720` whose signed rotation aligns both green teeth within 0.05, or the fallback exactly when no `k` does. |
| `Alignment.OffsetRange` | src/generator.py:316-375 | The returned value is 0, a multiple of pi/180 in [0, 4pi), or pi/3. |
| `Alignment.FallbackIsACandidate` | src/generator.py:374-375 | The fallback pi/3 equals candidate 60, so the returned float does not reveal whether the fallback was taken. |
| `Alignment.AdjacentGearsCounterRotate` | src/generator.py:520-523 | Adjacent gears turn by opposite amounts under the sign rule. |
| `Alignment.RotationFollowsDirection` | src/generator.py:520-523 | Under the parity rule, a gear turns by `+offset` exactly when it shares the first gear's direction. |
| `Alignment.MarkedAfterRotation` | src/generator.py:331-352 | Rotating and then marking the green tooth gives the same angle as marking and then rotating. |
| `Alignment.RenderedRotations` | src/generator.py:516-523 | The render loop gives one rotation per gear. |
| `Alignment.AlignedInFacingFold` | src/generator.py:354-371 | An accepted rotation, measured with the collision test's fold, puts the first green tooth within 0.05 of the connecting line and the second within 0.05 of its opposite. |
| `Alignment.RenderedMarkedTooth` | src/generator.py:406-409 | In a gear rendered with the sign rule of lines 520-523, the green tooth is drawn at `rotation_angle + 2*pi*i/12`, the angle `_draw_gear` uses. That is where the solver's rotated green-tooth angle points. |
| `Alignment.AlignedRenderedTeeth` | src/generator.py:328-372 | For an accepted rotation, the picture drawn with that offset shows both green teeth on the connecting line, within the tolerance. The teeth are drawn at the angles of lines 406-409. |
| `Alignment.FoundAlignsRenderedMarkedTeeth` | src/generator.py:307-375 | When the solver finds a candidate, the green teeth of the last two rendered gears face each other along the connecting line, within 0.05. |
| `TaskData.GenerateTaskData` | src/generator.py:62-155 | The result holds the gears, directions, last direction, angles and final rotation the parts above define. Directions alternate, and the last direction is the last gear's direction and follows the parity rule. |

## Left out

- Drawing, fonts, colours, the arrows and labels, `_render_initial_state`, `_render_final_state` and the video
  (`_generate_video`): pixel work with no logic to verify. Of `_render_gears`, only the sign rule is modelled.
- `generate_task_pair`, the prompt templates of `src/prompts.py` and the settings class of `src/config.py`.
  Their defaults appear only as `DEFAULT_CONFIG`.
- Randomness: `random.randint`, `random.choice` and `random.uniform` become fields of a `Draws` parameter.
- `math.cos`, `math.sin`, `math.atan2` and `math.sqrt` are unknown functions in a `Trig` parameter. A lemma
  that needs a fact about them, such as the Pythagorean identity or `atan2(0, dx) == 0`, states it as a
  precondition.
- Floating point: angles and the diagonal steps are exact reals. `math.pi` and `math.sqrt(2)` are the
  decimal literals they print as, so rounding, and any bit-level agreement with the float program, is
  not modelled.
- `Alignment.Calculate180DegreeRotation`: the number of candidates `int(4pi / (pi/180))` is taken as 720,
  its value in exact arithmetic; the float quotient may truncate differently.
- `Layout.DiagonalDownShape`: the model claims no equal distance between diagonal neighbours. Only
  monotonicity (here) and, on a square image, `x == y` (`Layout.DiagonalDownOnDiagonal`) are stated, because the float division by `sqrt(2)` and
  the truncation perturb the distance.
- `Meshing.ResolvePairFacts`: the model does not claim that the resolver removes every collision.
  - The third tier can stop right after an adjustment without checking again.
  - A later pair can move `angles[i + 1]` after pair `i` has settled it.
  - Nothing in the source bounds what an exhausted pair leaves.
- `Alignment.Calculate180DegreeRotation`: the model does not claim that the fallback is avoided or that the
  0.05 tolerance can be met; nothing in the source promises either.
- The `directions` argument of `_initialize_angles_with_meshing` and `_calculate_180_degree_rotation` is not
  read by either function, and is not modelled.
- The list of angles that `_initialize_angles_with_meshing` updates in place is a local `seq<real>`
  reassigned element by element. No other code holds a reference to it, so aliasing does not arise.
- The sign of the render rule depends on the gear index alone, not on `first_direction`.
  `Alignment.RotationFollowsDirection` relates it to the direction list only relative to the first gear.
  Which screen direction that is, is part of the drawing and is not modelled.
