# Terrain visualiser core, modelled in Dafny

The system is a DirectX terrain viewer. A grey-scale bitmap becomes a
row-major height map of W x H samples. The samples are flattened, given
texture coordinates and vertex normals, turned into a triangle list, and
can be edited in place by raising a 3 x 3 patch. Around the terrain sit:

- a sky dome grid with a scrolling cloud texture;
- a bitmap font that lays out sentences as quads;
- a loader for a text model format;
- view-frustum visibility tests;
- a five-minute day clock that colours the scene;
- a first-person player with speed and look accumulators;
- a wind-blown grass field;
- small helpers: clamps, angle locking, named colours and screen dimensions.

This project models that core. Value computations are Dafny functions.
Objects that the program updates in place are classes with `modifies`
clauses. Loops are methods with invariants, proved against the functions.

## Conventions

- Single-precision floats are modelled as `real`.
- A C# exception is an explicit failure flag or `Option`, together with
  exactly the partial state the exception leaves behind. Examples are a
  list index out of range, a failed parse and a null array.
- Whatever the program gets from outside is a parameter:
  - decoded bitmaps and file lines (`None` when they cannot be opened);
  - the number parsers `parseFloat` and `parseInt`;
  - the values `Random.Next` returns;
  - whether a texture or GPU buffer could be created;
  - `unit`, the division of a vector by its length;
  - the player's trigonometric horizontal move.
- `MovementInput` has the fields its callers read and write: integer
  `LookRight`/`LookDown` and boolean `Jump`/`Sprint`. The
  `MovementInput.cs` file in the repository declares an older shape than
  the one its callers use.
- Terrain index formulas:
  - Several of them in `Terrain.cs` use the map's height where the width is
    meant, and `UpdateNormal` averages the wrong faces.
  - Each of these is reproduced as written by a member named `...AsWritten`,
    with a lemma that exhibits the discrepancy (see "## Findings").
  - The `Terrain` class itself uses the corrected definitions.
- Sky plane:
  - `SkyPlane.Initialze` uses the source's constants: resolution 50,
    width 10, top 0.5, bottom 0 and texture repeat 2.
  - Its steps are proved once, for any grid shape, in `InitialzeShape`.
- Two behaviours are modelled as written and stated as lemmas, but are not
  changed:
  - Sunrise end: at the very end of the sunrise, the horizon falls back to
    black for one instant.
  - Border edits: an edit on the top or bottom row of the terrain throws.

## Model

| member | source | states |
|---|---|---|
| Colours.RgbOf | Visualiser/Containers/Colour.cs:38-62 | the switch of `SetByName`: each component is 0 or 1; blue is 1 iff White; red is 1 iff Yellow, Red or White; green is 1 iff Green, Yellow or White |
| Colours.Colour.Default | Visualiser/Containers/Colour.cs:5-8 | the parameterless constructor leaves alpha and all three components at 0 |
| Colours.Colour.FromComponents | Visualiser/Containers/Colour.cs:10-15 | the RGB constructor stores its three components unchanged; alpha stays 0 |
| Colours.Colour.FromName | Visualiser/Containers/Colour.cs:17-20 | the named constructor gives the named colour's components; alpha stays 0 |
| Colours.Colour.ChangeTo | Visualiser/Containers/Colour.cs:27-30 | the components become those of the name; alpha is untouched |
| Colours.Colour.SetByName | Visualiser/Containers/Colour.cs:32-63 | zeroes red, green and blue, then sets those the name calls for; alpha is untouched |
| Colours.UnlistedIsBlack | Visualiser/Containers/Colour.cs:59-61 | Black and every unlisted value map to (0, 0, 0) |
| Colours.ChangeToForgetsPreviousColour | Visualiser/Containers/Colour.cs:27-36 | two colours with any previous components agree after the same `ChangeTo`, so it is idempotent |
| Dimensions.Dimension.Empty | Visualiser/Containers/Dimension.cs:7-10 | the parameterless constructor gives width 0 and height 0 |
| Dimensions.Dimension.constructor | Visualiser/Containers/Dimension.cs:12-16 | the two-argument constructor stores width and height |
| Dimensions.Dimension.AspectRatio | Visualiser/Containers/Dimension.cs:21-34 | 0 when the height is not positive; otherwise the ratio times the height is the width, and it is positive iff the width is |
| Dimensions.SameSizeSameAspect | Visualiser/Containers/Dimension.cs:21-39 | two dimensions that match the same display mode (`SameSizeAs`: width and height both equal) have the same aspect ratio |
| Dimensions.AspectRatioIgnoresScale | Visualiser/Containers/Dimension.cs:21-34 | scaling both sides by the same positive factor keeps the aspect ratio |
| FoliageModel.Planted | Visualiser/Graphics/Objects/Foliage.cs:185-196 | with every draw in [0, max), x and z lie in [-4.5, 4.5), red in [1, 2), green in [0.5, 1.5), and blue stays 0 |
| FoliageModel.WindStep | Visualiser/Graphics/Objects/Foliage.cs:57-73 | direction 1 adds 0.1 and switches to 2 exactly when the angle passes 10; any other direction subtracts 0.1 and switches to 1 exactly when it passes -10; one step keeps the wind invariant |
| FoliageModel.WindStaysBounded | Visualiser/Graphics/Objects/Foliage.cs:57-73 | from a state satisfying the invariant, after any number of frames the direction is 1 or 2 and the angle is in [-10.1, 10.1] |
| FoliageModel.InitialWindIsValid | Visualiser/Graphics/Objects/Foliage.cs:33-34 | the state `Initialise` sets, angle 0.9 and direction 1, satisfies the invariant |
| FoliageModel.Foliage.constructor | Visualiser/Graphics/Objects/Foliage.cs:22-23 | a new foliage object has no tufts and a zero wind state |
| FoliageModel.Foliage.Initialise | Visualiser/Graphics/Objects/Foliage.cs:25-37 | sets the count, plants tuft i from draws 4i..4i+3, builds one instance per tuft, starts the wind at (0.9, 1); the result is the texture loader's |
| FoliageModel.Foliage.GeneratePositions | Visualiser/Graphics/Objects/Foliage.cs:177-199 | a fresh array of `FoliageCount` tufts, tuft i planted from its own four draws |
| FoliageModel.Foliage.InitialiseBuffers | Visualiser/Graphics/Objects/Foliage.cs:122-175 | six quad vertices; one instance per tuft, each with the identity matrix and its tuft's colour |
| FoliageModel.Foliage.Frame | Visualiser/Graphics/Objects/Foliage.cs:55-73 | the wind state advances by exactly one `WindStep` and keeps the invariant |
| FontModel.GlyphQuad | Visualiser/Graphics/Components/Font.cs:62-99 | six vertices, the fourth equal to the first and the sixth to the second, all at z = 0; each corner is on the pen line or one height below, with the matching corner of the glyph's texture span |
| FontModel.SixVerticesPerGlyph | Visualiser/Graphics/Components/Font.cs:45-58 | a completed layout has exactly six vertices per non-space character and none for a space |
| FontModel.CompleteIffAllGlyphsExist | Visualiser/Graphics/Components/Font.cs:47-57 | the layout completes iff every character is a space or has a glyph slot; `c - 32` is not bounds-checked |
| FontModel.VerticesOnTheLine | Visualiser/Graphics/Components/Font.cs:62-99 | every emitted vertex lies at z = 0, on the pen's line or one glyph height below it |
| FontModel.PenMovesRight | Visualiser/Graphics/Components/Font.cs:49-57 | with non-negative glyph widths the pen never moves left |
| FontModel.FontEntry | Visualiser/Graphics/Components/Font.cs:115-122 | a metrics line parses iff it has three or more tokens and the last three parse; they are left, right and size, in that order |
| FontModel.Letter | Visualiser/Graphics/Components/Font.cs:47 | the glyph index `character - 32`: 0 exactly for a space, and in the 95-slot table exactly for the printable ASCII characters |
| FontModel.LayoutFrom | Visualiser/Graphics/Components/Font.cs:41-60 | the layout of the sentence from a pen position: the glyph quads in order, stopping at the first character without a glyph; `SixVerticesPerGlyph`, `CompleteIffAllGlyphsExist`, `VerticesOnTheLine` and `PenMovesRight` state its properties |
| FontModel.LoadedFrom | Visualiser/Graphics/Components/Font.cs:101-133 | the number of lines stored before the loop stops: every line before it parses, and it stops at the end of the file, at 95 slots or at a line that fails |
| FontModel.Font.constructor | Visualiser/Graphics/Components/Font.cs:15 | before the data is loaded there is no glyph table |
| FontModel.Font.Initialise | Visualiser/Graphics/Components/Font.cs:18-28 | stores height and space size and builds a fresh 95-slot table: slot n holds line n's metrics up to the first line that fails, the rest are empty, and a missing file leaves every slot empty; true iff the texture loads and every line of the file is stored |
| FontModel.Font.LoadFontData | Visualiser/Graphics/Components/Font.cs:101-133 | line n fills slot n up to the first failure and the other slots stay empty; false for a missing file, more than 95 lines or an unparsable line |
| FontModel.FillGlyphs | Visualiser/Graphics/Components/Font.cs:111-124 | the read loop over an empty 95-slot table: slot n holds line n's metrics up to the first line that fails or the full table, the rest stay empty; true iff every line was read |
| FontModel.Font.BuildGlyph | Visualiser/Graphics/Components/Font.cs:62-99 | appends the glyph's six-vertex quad at the pen, or fails without appending when the glyph index has no slot |
| FontModel.Font.BuildVertexArray | Visualiser/Graphics/Components/Font.cs:41-60 | the vertices, the final pen X and success are those of the layout; the caller's pen object ends at the new X and its Y is unchanged |
| Frustum.SomeCornerInside | Visualiser/Graphics/Components/Frustrum.cs:69-87 | the eight `continue` tests pass iff some corner of the box has non-negative distance to the plane |
| Frustum.Frustrum.CheckPointFrom | Visualiser/Graphics/Components/Frustrum.cs:53-61 | true iff the point has non-negative distance to every remaining plane |
| Frustum.Frustrum.CheckSphereFrom | Visualiser/Graphics/Components/Frustrum.cs:92-101 | true iff the centre's distance to every remaining plane is at least -radius |
| Frustum.Frustrum.CheckCubeFrom | Visualiser/Graphics/Components/Frustrum.cs:66-91 | true iff for every remaining plane some corner of the cube c ± radius is on the inside |
| Frustum.Frustrum.CheckRectangleFrom | Visualiser/Graphics/Components/Frustrum.cs:110-136 | true iff for every remaining plane some corner of the box c ± size is on the inside |
| Frustum.Frustrum.CheckPoint | Visualiser/Graphics/Components/Frustrum.cs:49-61 | the point is visible iff its distance to each of the six planes is non-negative |
| Frustum.Frustrum.CheckSphere | Visualiser/Graphics/Components/Frustrum.cs:92-101 | the sphere is visible iff its centre is no more than the radius behind each of the six planes |
| Frustum.Frustrum.CheckCube | Visualiser/Graphics/Components/Frustrum.cs:62-91 | the cube is visible iff each of the six planes has some corner of c ± r on its inner side |
| Frustum.Frustrum.CheckRectangle | Visualiser/Graphics/Components/Frustrum.cs:106-136 | the box is visible iff each of the six planes has some corner of c ± size on its inner side |
| Frustum.CubeIsEqualRectangle | Visualiser/Graphics/Components/Frustrum.cs:62-136 | `CheckCube(c, r)` equals `CheckRectangle(c, (r, r, r))` |
| Frustum.SphereMonotone | Visualiser/Graphics/Components/Frustrum.cs:92-101 | a sphere that passes passes with any larger radius |
| Frustum.PointInsideImpliesSphere | Visualiser/Graphics/Components/Frustrum.cs:53-101 | a visible centre makes every sphere of non-negative radius around it visible |
| Frustum.OppositeCornersAverage | Visualiser/Graphics/Components/Frustrum.cs:69-87 | the distances of two opposite corners add up to twice the centre's distance |
| Frustum.PointInsideImpliesRectangle | Visualiser/Graphics/Components/Frustrum.cs:106-136 | a visible centre makes every box around it visible |
| Frustum.PointInsideImpliesCube | Visualiser/Graphics/Components/Frustrum.cs:62-91 | a visible centre makes every cube around it visible |
| GraphicsObject.HeaderCount | Test/Visualiser/Graphics/Object.cs:69-70 | the count parses from the trimmed text after the first ':' of line 0; it is missing iff there is no line 0, no ':' part, or the text does not parse |
| GraphicsObject.Record | Test/Visualiser/Graphics/Object.cs:76-88 | a data line parses iff it has eight or more tokens and the first eight parse; they become x, y, z, tu, tv, nx, ny, nz in order, and extra tokens are ignored |
| GraphicsObject.StopLine | Test/Visualiser/Graphics/Object.cs:74-89 | the line where the data loop stops: every line before it parses, and it stops at min(lines, 4 + count) or at the first line that does not parse |
| GraphicsObject.VertexOf | Test/Visualiser/Graphics/Object.cs:110-115 | a record copied field for field into a vertex: position, texture coordinate and normal |
| GraphicsObject.LoadedRecord | Test/Visualiser/Graphics/Object.cs:72-89 | slot k after the data loop: the parsed line 4 + k if the loop got past it, else a zero record; `ReadRecords` states it |
| GraphicsObject.ReadRecords | Test/Visualiser/Graphics/Object.cs:72-91 | a fresh array of `count` records; slot k holds line 4 + k if the loop parsed it and a zero record otherwise; true iff the loop ran to its end |
| GraphicsObject.Object.constructor | Test/Visualiser/Graphics/Object.cs:22-29 | no records and zero counts |
| GraphicsObject.Object.Initialise | Test/Visualiser/Graphics/Object.cs:31-40 | true iff the file exists, its header gives a count n >= 0, every data line the loop reaches (lines 4 .. 3 + n that the file has) parses, and the buffers are created; then there are n vertices, vertex i is record i of the file (a zero record past the file's end) field for field, and index i is i |
| GraphicsObject.Object.LoadObject | Test/Visualiser/Graphics/Object.cs:61-99 | sets the vertex and index counts before allocating; a negative count, missing file or bad header fails; otherwise the records are those `ReadRecords` gives |
| GraphicsObject.Object.InitialiseBuffers | Test/Visualiser/Graphics/Object.cs:101-131 | succeeds iff both counts are non-negative, the record array exists and is long enough for the vertices and the index loop when there are vertices, and the GPU creates both buffers (`buffersCreated`); vertex i is record i field for field and index i is i; failure leaves the buffers unchanged |
| GraphicsObject.Object.LoadTexture | Test/Visualiser/Graphics/Object.cs:133-141 | reports success whatever the texture loader did |
| LookDirection.HalveTowardZero | Visualiser/Containers/LookDirection2D.cs:30-31 | C#'s `n / 2`: the quotient is truncated toward zero, with bounds on both signs |
| LookDirection.HalveTowardZeroOfMinusThree | Visualiser/Containers/LookDirection2D.cs:30 | -3 halves to -1, where Euclidean division gives -2 |
| LookDirection.HalveTowardZeroIsOdd | Visualiser/Containers/LookDirection2D.cs:30-31 | halving commutes with negation |
| LookDirection.LookDirection2D.constructor | Visualiser/Containers/LookDirection2D.cs:15-16 | both turns start at 0 |
| LookDirection.LookDirection2D.Update | Visualiser/Containers/LookDirection2D.cs:28-44 | overwrites Right and Down with half the mouse deltas, truncated toward zero |
| LookDirection.UpdateForgetsHistory | Visualiser/Containers/LookDirection2D.cs:28-44 | two look directions with different histories and frame times agree after the same input |
| MathUtil.Clamp | Visualiser/Utilities/Math.cs:6-9 | min is tested first: a value below min gives min; a value from min up that exceeds max gives max; a value in [min, max] is returned unchanged; for min <= max the result is in [min, max] |
| MathUtil.ClampInt | Visualiser/Utilities/Math.cs:11-14 | the same case split, in the same order, for the `int` overload |
| MathUtil.ClampInvertedBounds | Visualiser/Utilities/Math.cs:6-9 | with min > max, any value from min up clamps to max, because min is tested first |
| MathUtil.ClampIdempotent | Visualiser/Utilities/Math.cs:6-9 | clamping twice is clamping once |
| MathUtil.ClampIntIdempotent | Visualiser/Utilities/Math.cs:11-14 | the same for the `int` overload |
| MathUtil.RotationLock | Visualiser/Utilities/Math.cs:16-29 | over reals both loops terminate and compute the locked angle `RotationLocked` |
| MathUtil.RotationLockRange | Visualiser/Utilities/Math.cs:16-29 | the locked angle is in [0, 360]: below 360 when coming from below 0, above 0 when coming from above 360 |
| MathUtil.RotationLockWholeTurns | Visualiser/Utilities/Math.cs:16-29 | the locked angle differs from the input by a whole number of turns |
| MathUtil.RotationLockExamples | Visualiser/Utilities/Math.cs:16-29 | 360 stays 360, 720 becomes 360 and -360 becomes 0 |
| MathUtil.RotationLockIdempotent | Visualiser/Utilities/Math.cs:16-29 | locking a locked angle changes nothing |
| TestMathUtil.Clamp | Test/Visualiser/Utilities/Math.cs:5-8 | below min gives min; for min <= max the result is in [min, max]; in-range values are unchanged |
| TestMathUtil.ClampAboveMax | Test/Visualiser/Utilities/Math.cs:5-8 | a value above max and not below min gives max |
| TestMathUtil.ClampIdempotent | Test/Visualiser/Utilities/Math.cs:5-8 | clamping twice is clamping once |
| TestMathUtil.SameAsEngineClamp | Test/Visualiser/Utilities/Math.cs:5-8 | the test copy agrees with the engine's `int` clamp on every input |
| PlayerModel.NextVerticalVelocity | Visualiser/Graphics/Objects/Player.cs:31-39 | a jump near the ground (height difference below 0.1) gives 1 minus gravity, 0.95, and only such a jump raises the velocity; without one, a velocity above -10 drops by gravity, 0.05, and one at or below -10 does not change; [-10.05, 1] is kept |
| PlayerModel.VerticalVelocityStaysBounded | Visualiser/Graphics/Objects/Player.cs:20-39 | starting in [-10.05, 1] (at rest, say), the vertical velocity stays in [-10.05, 1] over any run of frames |
| PlayerModel.Player.constructor | Visualiser/Graphics/Objects/Player.cs:16-24 | fresh velocity and look direction, vertical velocity 0, the given position and rotation |
| PlayerModel.Player.Update | Visualiser/Graphics/Objects/Player.cs:26-73 | speeds and turns updated from the input; the pitch is clamped to [-90, 90] and the heading locked into [0, 360]; Position.Y moves by exactly the new vertical velocity; X and Z move by the given horizontal move |
| Velocity.Accelerate | Visualiser/Containers/Velocity3D.cs:35-49 | one component's `+=` step by its key, then its clamp to [0, 0.03 frameTime]; `AccelerateBounds` states its range and its held and released steps |
| Velocity.AccelerateBounds | Visualiser/Containers/Velocity3D.cs:33-50 | for a non-negative frame time each component ends in [0, 0.03 frameTime], and it is 0 for a zero frame time; a held key adds 0.001 frameTime below the cap, and a released key drops any speed up to 10 frameTime to 0 |
| Velocity.Velocity3D.constructor | Visualiser/Containers/Velocity3D.cs:11-16 | all six speeds start at 0 |
| Velocity.Velocity3D.NetForward | Visualiser/Containers/Velocity3D.cs:18-21 | forward minus backward: with both speeds non-negative it lies between -backward and forward |
| Velocity.Velocity3D.NetUpward | Visualiser/Containers/Velocity3D.cs:23-26 | upward minus downward: with both speeds non-negative it lies between -downward and upward |
| Velocity.Velocity3D.NetRightward | Visualiser/Containers/Velocity3D.cs:28-31 | rightward minus leftward: with both speeds non-negative it lies between -leftward and rightward |
| Velocity.Velocity3D.Update | Visualiser/Containers/Velocity3D.cs:33-50 | each component follows its own key only; for a non-negative frame time NetForward, NetRightward and NetUpward end in [-0.03 frameTime, 0.03 frameTime], and all are 0 for a zero frame time |
| Velocity.NetSpeedBounded | Visualiser/Containers/Velocity3D.cs:18-50 | the difference of two opposed components after a step is within one frame's maximum either way |
| TimeOfDayModel.AdvanceClock | Visualiser/Environment/TimeOfDay.cs:39-46 | adds the frame time and subtracts one day length at most once; with both in [0, day], the clock stays in [0, day] |
| TimeOfDayModel.SectionFormula | Visualiser/Environment/TimeOfDay.cs:91-101 | the section loop gives 1 + floor(arg / 0.125) and leaves a remainder in [0, 0.125) |
| TimeOfDayModel.WeightInUnitInterval | Visualiser/Environment/TimeOfDay.cs:101 | the blend weight within a section is in [0, 1) |
| TimeOfDayModel.SectionRange | Visualiser/Environment/TimeOfDay.cs:91-99 | arguments below 1 give sections 1..8; exactly 1 gives section 9 |
| TimeOfDayModel.CountSections | Visualiser/Environment/TimeOfDay.cs:91-99 | the while loop computes the section and leftover of `SectionOf` and `LeftoverOf` |
| TimeOfDayModel.BlendIsConvex | Visualiser/Environment/TimeOfDay.cs:149 | every component of the horizon blend lies between the two section colours' components |
| TimeOfDayModel.BetweenOne | Visualiser/Environment/TimeOfDay.cs:149 | one component blended with a weight in [0, 1] lies between its two ends |
| TimeOfDayModel.CloudBrightnessBounded | Visualiser/Environment/TimeOfDay.cs:65-87 | from a previous value in [0.015, 1], cloud brightness stays in [0.015, 1] after every sun update |
| TimeOfDayModel.SunriseSkyAndAmbient | Visualiser/Environment/TimeOfDay.cs:150-151 | the sunrise sky's blue is 0.66 times the argument and the ambient is white times it; the sunset ambient uses 1 minus the argument |
| TimeOfDayModel.SunriseStartsBlack | Visualiser/Environment/TimeOfDay.cs:103-111 | the sunrise starts from a black horizon |
| TimeOfDayModel.SunriseEndsBlack | Visualiser/Environment/TimeOfDay.cs:103-149 | a sunrise argument of exactly 1 reaches section 9, which no case handles, so the horizon is black rather than day-time blue |
| TimeOfDayModel.BlackBeyondSections | Visualiser/Environment/TimeOfDay.cs:103-147 | section 9 keeps the initial black pair |
| TimeOfDayModel.SunriseEndsBlackInTheDay | Visualiser/Environment/TimeOfDay.cs:67-73 | at exactly an eighth of the day the sun update produces that black horizon |
| TimeOfDayModel.SunsetHorizonIsConvex | Visualiser/Environment/TimeOfDay.cs:82-85 | every sunset argument the sun update passes is below 1, so the horizon blends two listed sunset colours |
| TimeOfDayModel.SunriseHorizonIsConvex | Visualiser/Environment/TimeOfDay.cs:71-74 | during the sunrise the horizon blends the two colours of its section |
| TimeOfDayModel.TimeOfDay.constructor | Visualiser/Environment/TimeOfDay.cs:32-37 | the static initial state: time 0 and all-zero outputs |
| TimeOfDayModel.TimeOfDay.Frame | Visualiser/Environment/TimeOfDay.cs:39-49 | the clock advances as `AdvanceClock` says, then the outputs are the sun lighting of the new time |
| TimeOfDayModel.TimeOfDay.UpdateSun | Visualiser/Environment/TimeOfDay.cs:65-87 | in the first half of the day: sunrise up to a quarter of that half, daylight before three quarters of it, sunset after; in the second half the previous outputs are kept; the clock is untouched |
| TimeOfDayModel.TimeOfDay.UpdateSunrise | Visualiser/Environment/TimeOfDay.cs:89-153 | the four outputs become the sunrise lighting of the argument |
| TimeOfDayModel.TimeOfDay.UpdateSunset | Visualiser/Environment/TimeOfDay.cs:155-219 | the four outputs become the sunset lighting of the argument |
| TimeOfDayModel.SunLighting | Visualiser/Environment/TimeOfDay.cs:65-87 | the outputs for a time of day: sunrise up to a quarter of the first half, daylight to three quarters, sunset after, and the previous outputs in the second half; `TimeOfDay.UpdateSun` and `CloudBrightnessBounded` state it |
| TimeOfDayModel.SunriseLighting | Visualiser/Environment/TimeOfDay.cs:89-153 | ambient white times the argument, the horizon blended within its section's colour pair, sky blue times the argument and the cloud brightness clamped to [0.015, 1]; `SunriseSkyAndAmbient` and `SunriseHorizonIsConvex` state it |
| TimeOfDayModel.SunsetLighting | Visualiser/Environment/TimeOfDay.cs:155-219 | the same with 1 minus the argument for the ambient, sky and clouds, and the sunset colour pairs; `SunsetHorizonIsConvex` states it |
| TextParsing.SplitNonEmpty | Test/Visualiser/Graphics/Object.cs:76 | the `RemoveEmptyEntries` split: every token is non-empty and holds no separator; `SplitNonEmptyIsNonEmptyFields` fixes the boundaries |
| TextParsing.TokensKeepEveryOtherCharacter | Test/Visualiser/Graphics/Object.cs:76 | the tokens put back together are the line without its separators, so nothing else is lost |
| TextParsing.SplitNonEmptyIsNonEmptyFields | Test/Visualiser/Graphics/Object.cs:76 | the tokens are exactly the non-empty fields of the plain split on the same separator, in order, so each token is a whole maximal run without separators |
| TextParsing.SplitAll | Test/Visualiser/Graphics/Object.cs:69 | the plain split: at least one field, none holding the separator |
| TextParsing.JoinSplit | Test/Visualiser/Graphics/Object.cs:69 | joining the fields with the separator gives the line back |
| TextParsing.Trim | Test/Visualiser/Graphics/Object.cs:69 | the result is a slice of the input with only white space cut from either end, and is itself trimmed |
| TextParsing.TrimIdempotent | Test/Visualiser/Graphics/Object.cs:69 | trimming twice is trimming once |
| RowMajor.PositionToIndex | Visualiser/Graphics/Objects/Terrain.cs:103-106 | the index z W + x of a grid point is in [0, W H), and division by W gives the point back |
| RowMajor.IndexToPosition | Visualiser/Graphics/Objects/Terrain.cs:103-106 | every index in [0, W H) is the index of a grid point, so the map is onto |
| RowMajor.IndexInjective | Visualiser/Graphics/Objects/Terrain.cs:103-106 | two grid points share an index only if they are the same point |
| RowMajor.CellGridLength | Visualiser/Graphics/Objects/Terrain.cs:624-638 | rows of cells of six vertices fill 6 cols rows entries |
| RowMajor.CellGridAt | Visualiser/Graphics/Objects/Terrain.cs:638-735 | vertex m of cell (i, j) sits at 6 (j cols + i) + m of the cell list, the running `index` |
| TerrainGrid.LoadedRow | Visualiser/Graphics/Objects/Terrain.cs:602-610 | row j of the loaded map holds pixel (c, j)'s sample at position c |
| TerrainGrid.LoadedRowsLength | Visualiser/Graphics/Objects/Terrain.cs:598-611 | each row adds W samples |
| TerrainGrid.LoadedMap | Visualiser/Graphics/Objects/Terrain.cs:595-611 | the loaded map holds W H samples |
| TerrainGrid.LoadedRowsAt | Visualiser/Graphics/Objects/Terrain.cs:600-611 | pixel (i, j) is loaded into entry j W + i |
| TerrainGrid.LoadedMapOnGrid | Visualiser/Graphics/Objects/Terrain.cs:604-609 | sample (i, j) of a loaded map sits at x = i, z = j |
| TerrainGrid.NormalisedMap | Visualiser/Graphics/Objects/Terrain.cs:185-193 | same length, every height divided by 15, every other field unchanged |
| TerrainGrid.RelativeIndexIsNeighbour | Visualiser/Graphics/Objects/Terrain.cs:108-149 | offsetting the index of (x, z) gives the index of the point offset by the neighbour's column and row |
| TerrainGrid.NeighboursAtBorders | Visualiser/Graphics/Objects/Terrain.cs:108-149 | nothing is bounds-checked: left of column 0 is the previous row's last sample, right of the last column the next row's first, and above row 0 or below the last row is outside the list |
| TerrainGrid.EditTargets | Visualiser/Graphics/Objects/Terrain.cs:73-86 | the nine entries an edit raises, the point first |
| TerrainGrid.EditDeltas | Visualiser/Graphics/Objects/Terrain.cs:75-86 | the full amount for the point, half of it for the eight neighbours |
| TerrainGrid.RaiseAll | Visualiser/Graphics/Objects/Terrain.cs:75-86 | successive raises change only heights and keep the length; the edit completes iff every target is inside the list |
| TerrainGrid.RaiseDistinct | Visualiser/Graphics/Objects/Terrain.cs:151-166 | with distinct targets inside the list, each target is raised by its own delta and nothing else changes |
| TerrainGrid.EditTargetsAreWindow | Visualiser/Graphics/Objects/Terrain.cs:73-86 | target n is the index of the point offset by the n-th window offset |
| TerrainGrid.InteriorTargets | Visualiser/Graphics/Objects/Terrain.cs:73-86 | away from the border the nine targets are distinct entries of the list inside the 3 x 3 window |
| TerrainGrid.TargetInWindow | Visualiser/Graphics/Objects/Terrain.cs:73-86 | each target of an interior edit lies in the window |
| TerrainGrid.InteriorEdit | Visualiser/Graphics/Objects/Terrain.cs:71-86 | an interior edit completes: the point rises by the delta, its eight neighbours by half, and every sample outside the window is unchanged |
| TerrainGrid.TopRowEditFails | Visualiser/Graphics/Objects/Terrain.cs:75-79 | on row 0 the top-left target is outside the list: only the point has been raised when the edit throws |
| TerrainGrid.BottomRowEditFails | Visualiser/Graphics/Objects/Terrain.cs:84-86 | on the last row the bottom neighbours are outside the list, so the edit never completes |
| TerrainGrid.CrossPerpendicular | Visualiser/Graphics/Objects/Terrain.cs:268-271 | a cross product is perpendicular to both its factors |
| TerrainGrid.GridFaceNormal | Visualiser/Graphics/Objects/Terrain.cs:258-281 | every face of the grid has a normal, the cross product of (P - B) and (B - R); on a unit-spaced grid it is (y - yRight, 1, y - yBelow) |
| TerrainGrid.FaceNormal | Visualiser/Graphics/Objects/Terrain.cs:258-281 | the face normal at (x, z): the cross product of the point minus its bottom neighbour and that neighbour minus its right one, or no normal when a read leaves the list; `GridFaceNormal` states it |
| TerrainGrid.FlatFaceIsUpright | Visualiser/Graphics/Objects/Terrain.cs:258-281 | a flat unit-spaced patch has the normal (0, 1, 0) |
| TerrainGrid.TouchingFaces | Visualiser/Graphics/Objects/Terrain.cs:422-448 | the faces a vertex normal averages, under the four border guards: at most four |
| TerrainGrid.TouchingFacesAreTheFacesAround | Visualiser/Graphics/Objects/Terrain.cs:422-448 | the guards pick out exactly the grid faces having the vertex as a corner, each once; an interior vertex has four |
| TerrainGrid.DiagonalFacesAsWritten | Visualiser/Graphics/Objects/Terrain.cs:365-391 | the faces `UpdateNormal` reads as written, (x ± 1, z ± 1) under the same guards: at most four |
| TerrainGrid.DiagonalFacesCounterexample | Visualiser/Graphics/Objects/Terrain.cs:365-391 | at the centre of a 3 x 3 map those faces are not the faces around the vertex; the lookups of (0, 0) and (2, 0) succeed, and that of (0, 2) reads its bottom neighbour, sample 9, past the list (`GetNormalForPosition`, Terrain.cs lines 262-266), so `UpdateNormal(1, 1)` on its own throws there |
| TerrainGrid.CentreEditFirstThrow | Visualiser/Graphics/Objects/Terrain.cs:88-93 | an edit at the centre of a 3 x 3 map renormalises (0, 0), (1, 0) and (2, 0), whose diagonal faces all exist, and then (0, 1), whose face (1, 2) reads sample 10 of 9, so the edit throws before `UpdateNormal(1, 1)` |
| TerrainGrid.LookupFaces | Visualiser/Graphics/Objects/Terrain.cs:343-355 | the normals of the faces in order, cached or computed, one per face |
| TerrainGrid.AgreeingCacheIsTransparent | Visualiser/Graphics/Objects/Terrain.cs:343-355 | a cache whose entries match the current map gives the same normals as no cache |
| TerrainGrid.ExtendedCacheLooksUpAlike | Visualiser/Graphics/Objects/Terrain.cs:343-355 | entries added while the map is unchanged do not change what a lookup gives |
| TerrainGrid.LookupOneMore | Visualiser/Graphics/Objects/Terrain.cs:343-355 | looking up one more face appends its normal, or fails with it |
| TerrainGrid.LookupFailureStays | Visualiser/Graphics/Objects/Terrain.cs:365-391 | once a lookup throws, later lookups are never reached |
| TerrainGrid.GridFacesLookUpCached | Visualiser/Graphics/Objects/Terrain.cs:343-355 | faces of the grid always have a normal, whatever the cache holds |
| TerrainGrid.SumOneMore | Visualiser/Graphics/Objects/Terrain.cs:307-317 | adding one more normal to the running sum adds it componentwise |
| TerrainGrid.SumOfUprightNormals | Visualiser/Graphics/Objects/Terrain.cs:418-452 | summing k normals with y = 1 gives y = k |
| TerrainGrid.GridVertexNormal | Visualiser/Graphics/Objects/Terrain.cs:406-465 | every vertex has a normal; on a unit-spaced grid its y before the length division is k / (9 + k), for the k faces around it |
| TerrainGrid.VertexNormal | Visualiser/Graphics/Objects/Terrain.cs:406-465 | the vertex normal: `unit` of the average of the faces touching the vertex (the corrected faces of Findings row 5); `GridVertexNormal` and `ArrayNormalsAreVertexNormals` state it |
| TerrainGrid.UprightFaces | Visualiser/Graphics/Objects/Terrain.cs:258-281 | on a unit-spaced grid every face normal has y = 1 |
| TerrainGrid.NormalledMap | Visualiser/Graphics/Objects/Terrain.cs:406-465 | writing every vertex normal in keeps the number of samples |
| TerrainGrid.FaceSlotCounterexample | Visualiser/Graphics/Objects/Terrain.cs:326-336 | with the height as stride, faces (2, 0) and (0, 1) of a 4 x 3 map share slot 2, where the width stride gives slots 2 and 3 |
| TerrainGrid.FaceSlotOverrun | Visualiser/Graphics/Objects/Terrain.cs:326-336 | with the height as stride, on a 2 x 4 map the first face goes to slot 0 and the second, (0, 1), already to slot 3 of the 3-slot array |
| TerrainGrid.NarrowMapFaceOverrun | Visualiser/Graphics/Objects/Terrain.cs:319-338 | for every 2 <= W < H the last face (W - 2, H - 2) goes, with the height as stride, to a slot at or past the end of the (H - 1)(W - 1) array |
| TerrainGrid.OneColumnMap | Visualiser/Graphics/Objects/Terrain.cs:223-231 | a one-column map has no faces, and the texture walk puts sample (0, 1) at slot H of the H-entry list |
| TerrainGrid.FaceSlotOnSquareMap | Visualiser/Graphics/Objects/Terrain.cs:332 | on a square map the written and corrected slots agree |
| TerrainGrid.FaceSlotInArray | Visualiser/Graphics/Objects/Terrain.cs:319-339 | each face of the grid has a slot inside the (W - 1)(H - 1) array |
| TerrainGrid.StoredFaces | Visualiser/Graphics/Objects/Terrain.cs:422-448 | the faces' normals read from their slots, one per face |
| TerrainGrid.StoredOneMore | Visualiser/Graphics/Objects/Terrain.cs:422-448 | reading one more face appends its slot's normal |
| TerrainGrid.FaceRows | Visualiser/Graphics/Objects/Terrain.cs:319-339 | the face-normal array `GetNewNormals` fills holds W - 1 entries per face row |
| TerrainGrid.FaceRowsAt | Visualiser/Graphics/Objects/Terrain.cs:326-336 | face (x, z)'s normal is at its slot of that array |
| TerrainGrid.StoredFace | Visualiser/Graphics/Objects/Terrain.cs:319-339 | a grid face's normal read from the filled array is its computed normal |
| TerrainGrid.StoredFacesAreFresh | Visualiser/Graphics/Objects/Terrain.cs:406-448 | reading faces from the filled array gives the same normals as computing them |
| TerrainGrid.ArrayNormalled | Visualiser/Graphics/Objects/Terrain.cs:406-465 | averaging every sample's normal from the array keeps the number of samples |
| TerrainGrid.ArrayNormalsAreVertexNormals | Visualiser/Graphics/Objects/Terrain.cs:467-473 | averaging from the filled array gives every sample its vertex normal, so `CalculateNormals` equals the per-vertex definition |
| TerrainGrid.CounterIsRemainder | Visualiser/Graphics/Objects/Terrain.cs:219-254 | a counter reset on reaching n holds k mod n after k steps, and k itself when n = 0 |
| TerrainGrid.TuIsCounterSteps | Visualiser/Graphics/Objects/Terrain.cs:225-242 | the running tu is the counter times the step |
| TerrainGrid.TvIsCounterSteps | Visualiser/Graphics/Objects/Terrain.cs:245-254 | the running tv is 1 minus the counter times the step |
| TerrainGrid.TexturedMap | Visualiser/Graphics/Objects/Terrain.cs:223-255 | same length; only tu and tv change |
| TerrainGrid.TexturedMapFromEntries | Visualiser/Graphics/Objects/Terrain.cs:223-255 | a list whose every entry is its sample textured is the textured map |
| TerrainGrid.TexturedEntry | Visualiser/Graphics/Objects/Terrain.cs:223-255 | sample (i, j) is textured with the sample counter at its index and the row counter at j, not restarted at row starts |
| TerrainGrid.NarrowMapNeverWraps | Visualiser/Graphics/Objects/Terrain.cs:209-242 | below the repeat width the cycle is 0, so tu never resets and grows by 8 / W per sample |
| TerrainGrid.NarrowTu | Visualiser/Graphics/Objects/Terrain.cs:225-242 | with no texture cycle the running tu is k steps |
| TerrainGrid.CounterBelowCycle | Visualiser/Graphics/Objects/Terrain.cs:212-242 | at or above the repeat width the counter stays below W / 8 |
| TerrainGrid.WideMapTexture | Visualiser/Graphics/Objects/Terrain.cs:206-256 | at or above the repeat width, 0 <= tu < 1 and 0 < tv <= 1 for every sample |
| TerrainGrid.TuInUnitRange | Visualiser/Graphics/Objects/Terrain.cs:225-242 | the running tu stays in [0, 1) |
| TerrainGrid.TvInUnitRange | Visualiser/Graphics/Objects/Terrain.cs:245-254 | the running tv stays in (0, 1] |
| TerrainGrid.WideMapTexturePeriod | Visualiser/Graphics/Objects/Terrain.cs:233-242 | tu comes round again every W / 8 samples |
| TerrainGrid.TuPeriod | Visualiser/Graphics/Objects/Terrain.cs:233-242 | the running tu repeats after W / 8 samples |
| TerrainGrid.CounterPeriod | Visualiser/Graphics/Objects/Terrain.cs:235-241 | a counter reset every n steps repeats after n steps |
| TerrainGrid.TextureSlotCounterexample | Visualiser/Graphics/Objects/Terrain.cs:228-231 | with the height as stride, a 2 x 3 map writes rows 0 and 1 inside the list and then sample (0, 2) to slot 6 of 6; a 3 x 2 map writes two samples into slot 2 |
| TerrainGrid.TextureSlotOnSquareMap | Visualiser/Graphics/Objects/Terrain.cs:228-231 | on a square map the walk's slot is the sample's own index |
| TerrainGrid.TopEdge | Visualiser/Graphics/Objects/Terrain.cs:650-653 | a tv of 1 is drawn as 0 and any other tv unchanged; (0, 1] maps into [0, 1) |
| TerrainGrid.RightEdge | Visualiser/Graphics/Objects/Terrain.cs:664-669 | a tu of 0 is drawn as 1 and any other tu unchanged; [0, 1) maps into (0, 1] |
| TerrainGrid.CellMesh | Visualiser/Graphics/Objects/Terrain.cs:642-733 | six vertices per cell |
| TerrainGrid.MeshCells | Visualiser/Graphics/Objects/Terrain.cs:638-735 | every cell gives six vertices |
| TerrainGrid.MeshRowsLength | Visualiser/Graphics/Objects/Terrain.cs:624-638 | the first rows of cells hold six vertices per cell |
| TerrainGrid.MeshRows | Visualiser/Graphics/Objects/Terrain.cs:638-735 | the triangle list of the first rows of cells, six vertices per cell; `MeshRowsLength` and `MeshRowsAt` state it |
| TerrainGrid.MeshRowsAt | Visualiser/Graphics/Objects/Terrain.cs:638-735 | vertex c of cell (i, j) is at 6 (j (W - 1) + i) + c and is the cell's c-th vertex |
| TerrainGrid.CornerSlotsFromBottomLeft | Visualiser/Graphics/Objects/Terrain.cs:642-645 | for the cell whose bottom-left entry is b, the corners read are b + W, b + W + 1, b and b + 1, all inside the list |
| TerrainGrid.CornerSlotsInGrid | Visualiser/Graphics/Objects/Terrain.cs:642-645 | the corners of a grid cell lie inside the list |
| TerrainGrid.CellCorners | Visualiser/Graphics/Objects/Terrain.cs:647-733 | on a unit-spaced grid, the six vertices sit on the cell's four corners in the order UL, UR, BL, BL, UR, BR, each at its own sample's height; the bottom-left vertex carries its sample's normal |
| TerrainGrid.SampleOnGrid | Visualiser/Graphics/Objects/Terrain.cs:604-609 | sample (i, j) of a unit-spaced grid sits at x = i, z = j |
| TerrainGrid.CellTrianglesFaceAlike | Visualiser/Graphics/Objects/Terrain.cs:647-733 | both triangles of a cell are wound the same way, whatever the heights |
| TerrainGrid.CornerSlotsCounterexample | Visualiser/Graphics/Objects/Terrain.cs:642-645 | with the height as stride, a 3 x 2 map reads the wrong sample for a cell's upper-right corner |
| TerrainGrid.CornerSlotsOverrun | Visualiser/Graphics/Objects/Terrain.cs:642-650 | with the height as stride, on a 2 x 3 map the first cell reads inside the list and the second reads its upper-left corner at slot 6 of 6 |
| TerrainGrid.CornerSlotsOnSquareMap | Visualiser/Graphics/Objects/Terrain.cs:642-645 | on a square map the written and corrected corners agree |
| TerrainModel.Terrain.constructor | Visualiser/Graphics/Objects/Terrain.cs:22-32 | an empty terrain: no samples, an empty normal cache, no buffers |
| TerrainModel.Terrain.Initialise | Visualiser/Graphics/Objects/Terrain.cs:34-49 | runs every step even after a failure: the map is loaded, flattened, normalled and textured, and the vertices are its mesh; true iff the bitmap, texture and buffers all succeed; corrected definition (the corrected strides of Findings rows 1 to 4), see "## Left out" |
| TerrainModel.Terrain.LoadHeightMap | Visualiser/Graphics/Objects/Terrain.cs:582-617 | with a bitmap, the size and map become the bitmap's and its loaded map; without one nothing changes |
| TerrainModel.Terrain.NormaliseHeightMap | Visualiser/Graphics/Objects/Terrain.cs:185-193 | the map becomes `NormalisedMap` of the old one; nothing else changes |
| TerrainModel.Terrain.CalculateTextureCoordinates | Visualiser/Graphics/Objects/Terrain.cs:206-256 | the map becomes `TexturedMap` of the old one; nothing else changes; corrected definition (the width stride of Findings row 1), see "## Left out" |
| TerrainModel.Terrain.GetNewNormals | Visualiser/Graphics/Objects/Terrain.cs:319-339 | a fresh array holding every face normal at its slot, `FaceRows`; an empty terrain gets one zero entry; corrected definition (the W - 1 stride of Findings row 2), see "## Left out" |
| TerrainModel.Terrain.UpdateNormals | Visualiser/Graphics/Objects/Terrain.cs:406-465 | every sample's normal becomes the average, over 9 plus their number, of the array's normals of the faces around it; always true; corrected definition (the W - 1 stride of Findings row 3), see "## Left out" |
| TerrainModel.Terrain.CalculateNormals | Visualiser/Graphics/Objects/Terrain.cs:467-473 | the map becomes `NormalledMap`, the per-vertex normals; always true; corrected definition (the W - 1 stride of Findings rows 2 and 3), see "## Left out" |
| TerrainModel.Terrain.GetCachedNormalForPosition | Visualiser/Graphics/Objects/Terrain.cs:343-355 | returns the cached normal if present, computing and adding it otherwise; entries are never removed or changed |
| TerrainModel.Terrain.UpdateNormal | Visualiser/Graphics/Objects/Terrain.cs:357-404 | the vertex normal becomes the average of the looked-up face normals; a lookup or index that throws stops it with the map unchanged and the cache entries added so far kept; corrected definition (the faces touching the vertex, Findings row 5), see "## Left out" |
| TerrainModel.Terrain.CachedAverage | Visualiser/Graphics/Objects/Terrain.cs:361-395 | found iff every face around the vertex could be looked up; then the average is their sum over 9 plus their number; corrected definition (the faces touching the vertex, Findings row 5), see "## Left out" |
| TerrainModel.Terrain.AddCachedNormal | Visualiser/Graphics/Objects/Terrain.cs:365-370 | one guarded block: under its guard, adds the face's normal and counts it, or records the throw; corrected definition (the faces touching the vertex, Findings row 5), see "## Left out" |
| TerrainModel.Terrain.InitialiseBuffers | Visualiser/Graphics/Objects/Terrain.cs:619-752 | vertex and index counts are (W - 1)(H - 1) 6; the vertices are `MeshRows` of the map and index k is k; the result is whether the buffers were created; corrected definition (the width stride of Findings row 4), see "## Left out" |
| TerrainModel.Terrain.LoadTexture | Visualiser/Graphics/Objects/Terrain.cs:195-204 | the texture object exists afterwards; the result is the loader's |
| TerrainModel.Terrain.ChangeHeight | Visualiser/Graphics/Objects/Terrain.cs:151-166 | true iff the index is inside the list; then only that entry's height changes, by exactly the delta; otherwise nothing changes |
| TerrainModel.Terrain.ChangeHeightAtPosition | Visualiser/Graphics/Objects/Terrain.cs:71-101 | the raises are `RaiseAll` over the nine targets, and a failed raise stops the edit; after a full raise only normals change; on success the vertices are the new map's mesh |
| TerrainModel.Terrain.RaiseTargets | Visualiser/Graphics/Objects/Terrain.cs:73-86 | the successive `ChangeHeight` calls give exactly `RaiseAll`, map and flag |
| TerrainModel.Terrain.RenormaliseWindow | Visualiser/Graphics/Objects/Terrain.cs:88-98 | the nine `UpdateNormal` calls change only normals; corrected definition (through `UpdateNormal`, the faces of Findings row 5), see "## Left out" |
| TerrainModel.Terrain.ChangeNormal | Visualiser/Graphics/Objects/Terrain.cs:168-183 | true iff the index is inside the list; then only that entry's normal is replaced; otherwise nothing changes |
| TerrainModel.TextureWalk | Visualiser/Graphics/Objects/Terrain.cs:206-256 | the running counters of the walk produce exactly `TexturedMap`; corrected definition (the width stride of Findings row 1), see "## Left out" |
| TerrainModel.FillFaceRow | Visualiser/Graphics/Objects/Terrain.cs:328-335 | writes face row z's normals into their slots and leaves the earlier slots alone; corrected definition (the W - 1 stride of Findings row 2), see "## Left out" |
| TerrainModel.NormalsFromArray | Visualiser/Graphics/Objects/Terrain.cs:414-460 | the two loops produce exactly `ArrayNormalled`; corrected definition (the W - 1 stride of Findings row 3), see "## Left out" |
| TerrainModel.NormalsRow | Visualiser/Graphics/Objects/Terrain.cs:416-459 | row z's samples get their averaged normals; later samples are unchanged; corrected definition (the W - 1 stride of Findings row 3), see "## Left out" |
| TerrainModel.BuildMesh | Visualiser/Graphics/Objects/Terrain.cs:624-735 | arrays of (W - 1)(H - 1) 6 entries holding `MeshRows` and the identity indices; corrected definition (the width stride of Findings row 4), see "## Left out" |
| TerrainModel.FillMesh | Visualiser/Graphics/Objects/Terrain.cs:638-735 | the nested loops with the running index fill the cells row by row: `MeshRows`, and index k is k; corrected definition (the width stride of Findings row 4), see "## Left out" |
| TerrainModel.FillMeshRow | Visualiser/Graphics/Objects/Terrain.cs:640-734 | row j's cells are appended after what is already written; corrected definition (the width stride of Findings row 4), see "## Left out" |
| TerrainModel.WriteCell | Visualiser/Graphics/Objects/Terrain.cs:642-733 | one cell's six writes append `CellMesh` and set each index to its position; corrected definition (the width stride of Findings row 4), see "## Left out" |
| TerrainModel.ArrayAverage | Visualiser/Graphics/Objects/Terrain.cs:418-452 | the guarded blocks give the average of the array's normals of the faces around the vertex; corrected definition (the W - 1 stride of Findings row 3), see "## Left out" |
| TerrainModel.AddStored | Visualiser/Graphics/Objects/Terrain.cs:422-427 | one guarded block: appends the face's slot normal to the sum and counts it; corrected definition (the W - 1 stride of Findings row 3), see "## Left out" |
| TerrainModel.TextureRow | Visualiser/Graphics/Objects/Terrain.cs:225-243 | row j textured sample by sample, the tu counter carried on from the previous row; corrected definition (the width stride of Findings row 1), see "## Left out" |
| SkyPlaneModel.DomeHeight | Visualiser/Graphics/Objects/SkyPlane.cs:140-154 | the dome's height `top - constant (x^2 + z^2)` with constant (top - bottom) / radius^2; `DomeShape` states its top and rim |
| SkyPlaneModel.GridPoint | Visualiser/Graphics/Objects/SkyPlane.cs:138-158 | grid point (i, j): x and z step by width / res from -width / 2, y is the dome height, and tu, tv step by repeat / res; `RowPointsAt` and `TextureSpansRepeat` place it |
| SkyPlaneModel.DomeShape | Visualiser/Graphics/Objects/SkyPlane.cs:140-154 | the height is `top` at the centre and `bottom` wherever x^2 + z^2 = (width / 2)^2 |
| SkyPlaneModel.SkyPlaneCentreAndEdges | Visualiser/Graphics/Objects/SkyPlane.cs:147-154 | for the sky plane's own constants, the middle point is at the top and the middles of the edges at the bottom |
| SkyPlaneModel.TextureSpansRepeat | Visualiser/Graphics/Objects/SkyPlane.cs:144-158 | tu and tv run from 0 at the first point to `repeat` at the last |
| SkyPlaneModel.RowPoints | Visualiser/Graphics/Objects/SkyPlane.cs:149-169 | a row prefix of i points has length i |
| SkyPlaneModel.RowPointsAt | Visualiser/Graphics/Objects/SkyPlane.cs:149-168 | point c of row j is grid point (c, j) |
| SkyPlaneModel.GridRowsLength | Visualiser/Graphics/Objects/SkyPlane.cs:147-170 | j rows hold j (res + 1) points |
| SkyPlaneModel.GridRowsAt | Visualiser/Graphics/Objects/SkyPlane.cs:147-168 | grid point (i, j) is at slot j (res + 1) + i |
| SkyPlaneModel.GridRowsIsGrid | Visualiser/Graphics/Objects/SkyPlane.cs:135-170 | all res + 1 rows make up the whole (res + 1)^2 grid, each slot holding its own point |
| SkyPlaneModel.CellSlotsInGrid | Visualiser/Graphics/Objects/SkyPlane.cs:81-84 | cell (i, j) reads b, b + 1, b + res + 1 and b + res + 2, all below (res + 1)^2 |
| SkyPlaneModel.CellVertices | Visualiser/Graphics/Objects/SkyPlane.cs:86-115 | six vertices per cell |
| SkyPlaneModel.SkyCells | Visualiser/Graphics/Objects/SkyPlane.cs:77-117 | every cell gives six vertices |
| SkyPlaneModel.CellRowsAt | Visualiser/Graphics/Objects/SkyPlane.cs:77-117 | vertex m of cell (i, j) is at 6 (j res + i) + m and copies slot index1, index2, index3, index3, index2 or index4 |
| SkyPlaneModel.NextTranslation | Visualiser/Graphics/Objects/SkyPlane.cs:244-250 | adds 0.0001 and subtracts 1 once past 1; [0, 1] is kept |
| SkyPlaneModel.TranslationStaysInRange | Visualiser/Graphics/Objects/SkyPlane.cs:244-250 | from any translation in [0, 1], it stays in [0, 1] however many frames pass |
| SkyPlaneModel.BufferSizes | Visualiser/Graphics/Objects/SkyPlane.cs:65-79 | the cells fill res^2 6 of the (res + 1)^2 6 entries the buffers are sized for |
| SkyPlaneModel.SkyPlane.constructor | Visualiser/Graphics/Objects/SkyPlane.cs:17-29 | translation 0 and no textures |
| SkyPlaneModel.SkyPlane.Initialze | Visualiser/Graphics/Objects/SkyPlane.cs:32-61 | with the source's constants: scale, brightness and translation set; the grid built, then the buffers, then the textures; true iff both textures load; the perturb texture is created only after the cloud texture loads |
| SkyPlaneModel.SkyPlane.InitialzeShape | Visualiser/Graphics/Objects/SkyPlane.cs:42-60 | the same steps for any grid shape |
| SkyPlaneModel.SkyPlane.InitializeSkyPlane | Visualiser/Graphics/Objects/SkyPlane.cs:132-173 | a fresh (res + 1)^2 array that is the whole grid; always true; nothing else changes |
| SkyPlaneModel.SkyPlane.InitializeBuffers | Visualiser/Graphics/Objects/SkyPlane.cs:62-131 | counts (res + 1)^2 6; the first res^2 6 entries are the cells with index k = k, and the rest stay zero |
| SkyPlaneModel.SkyPlane.LoadTextures | Visualiser/Graphics/Objects/SkyPlane.cs:174-191 | creates the cloud texture, and creates the perturb texture only if the cloud texture loaded; true iff both load |
| SkyPlaneModel.SkyPlane.Frame | Visualiser/Graphics/Objects/SkyPlane.cs:244-250 | the translation advances by one `NextTranslation` |
| SkyPlaneModel.BuildGrid | Visualiser/Graphics/Objects/SkyPlane.cs:135-170 | the nested loops fill a fresh array with exactly `GridRows` |
| SkyPlaneModel.FillGridRow | Visualiser/Graphics/Objects/SkyPlane.cs:149-169 | row j's points are appended after the rows already written |
| SkyPlaneModel.BuildBuffers | Visualiser/Graphics/Objects/SkyPlane.cs:65-117 | arrays of (res + 1)^2 6 entries: the cells and identity indices first, zeros after |
| SkyPlaneModel.FillCells | Visualiser/Graphics/Objects/SkyPlane.cs:75-117 | the loops write the res^2 cells with index k = k and leave the entries after them alone |
| SkyPlaneModel.FillCellRow | Visualiser/Graphics/Objects/SkyPlane.cs:79-116 | row j's cells are appended after what is already written; later entries untouched |
| SkyPlaneModel.WriteCell | Visualiser/Graphics/Objects/SkyPlane.cs:81-115 | one cell's six writes append `CellVertices`, each index set to its own position |

## Left out

- GPU work is not part of this model, because it has no computable behaviour. This covers device, buffer and shader calls (`Buffer.Create`, `Render`, `RenderBuffers`, `Dispose`, `ShurDown` and the release methods).
- `Terrain` and `Object` create their buffers inside a `try`, so whether the GPU accepted them is the boolean parameter `buffersCreated`. Whether a texture loaded is a boolean parameter too.
- SkyPlaneModel.SkyPlane.InitializeBuffers and FoliageModel.Foliage.InitialiseBuffers always report success: the source creates those buffers outside any `try`, so a refused buffer is an exception that reaches the caller, and the model has no such exception.
- Bitmap decoding, file reading, number parsing and `Random` are parameters, for the same reason: their results come from outside the program. These are an `Option` bitmap, `Option` line lists, parse functions and a list of draws.
- MathUtil.RotationLock terminates only over reals. In single precision `value - 360 == value` once |value| reaches 2^33, and for the infinities, so the source's loops never end for such angles. The model's angles are reals, where both loops terminate.
- Floating-point rounding is not modelled: floats are exact reals. The `(float)` casts in `TimeOfDay` and the single-precision accumulation of texture coordinates are therefore exact.
- The division by the vector length in `UpdateNormal` and `UpdateNormals` is the `unit` parameter. It needs a square root and is undefined for a zero sum.
- TerrainModel.Terrain.UpdateNormal, TerrainModel.Terrain.UpdateNormals and TerrainModel.Terrain.CalculateNormals state the stored normal only as `unit` applied to the average, because of that parameter.
- A C# exception becomes a failure flag in the model, because the model has no exceptions. Exceptions arise from a list or array index out of range, a failed parse or a null array. `ChangeHeightAtPosition` has no `catch`, so in the program the exception reaches the caller.
- TerrainModel.Terrain.ChangeHeightAtPosition is weaker than the source in one respect: after a complete raise it states only that nothing but normals changes. It does not state the nine new normal values, because each is a sequence of cached lookups against a map that changes as they run.
- TerrainModel.Terrain.RenormaliseWindow is weaker in the same way: it states only that normals alone change.
- The nine `ChangeHeight` calls and the nine `UpdateNormal` calls of `ChangeHeightAtPosition` are written as loops over their targets. The order is the source's.
- TerrainModel.Terrain.ChangeHeightAtPosition ignores the result of its final buffer rebuild, as the source does.
- The `Terrain` members below use the corrected index formulas of "## Findings", which agree with the source on square maps (W = H, the shipped height maps). What the source does on other maps, or in every case for row 5, is stated once by the as-written lemma of that row, not by these members:
- TerrainModel.Terrain.CalculateTextureCoordinates, TerrainModel.TextureWalk and TerrainModel.TextureRow use the width stride. The source uses `Height * j + i`. For W > H two samples share a slot and some samples keep their old coordinates (Findings row 1). For W < H the walk writes past the list. Through `Initialise` that happens only at W = 1, where sample (0, 1) goes to slot H and the exception leaves `Initialise` (`OneColumnMap`). For 2 <= W < H the source has already thrown in `GetNewNormals`.
- TerrainModel.Terrain.GetNewNormals and TerrainModel.FillFaceRow use the W - 1 stride. The source uses H - 1. For W > H faces share slots and the last slots keep zero normals (Findings row 2). For 2 <= W < H the last face is written past the array, so the exception leaves `CalculateNormals` and `Initialise` (`NarrowMapFaceOverrun`). For W = 1 the array is empty and no face is written.
- TerrainModel.Terrain.UpdateNormals, TerrainModel.NormalsFromArray, TerrainModel.NormalsRow, TerrainModel.ArrayAverage and TerrainModel.AddStored read face slots with the W - 1 stride. The source reads with H - 1, so for W > H a vertex averages other faces' normals or unwritten zero slots (Findings row 3). For 2 <= W < H the source has already thrown in `GetNewNormals`. For W = 1 no guard holds and no face slot is read.
- TerrainModel.Terrain.CalculateNormals is the combination of the two rows above. For W > H its normals differ from the source's. For 2 <= W < H the source throws instead of returning.
- TerrainModel.Terrain.UpdateNormal, TerrainModel.Terrain.CachedAverage and TerrainModel.Terrain.AddCachedNormal average the faces touching the vertex. On every map the source averages the faces at (x ± 1, z ± 1), and throws where one of them reaches past the list (Findings row 5).
- TerrainModel.Terrain.RenormaliseWindow and TerrainModel.Terrain.ChangeHeightAtPosition renormalise through that corrected `UpdateNormal`, so they inherit the difference from row 5.
- TerrainModel.Terrain.InitialiseBuffers, TerrainModel.BuildMesh, TerrainModel.FillMesh, TerrainModel.FillMeshRow and TerrainModel.WriteCell read cell corners with the width stride. The source uses `H * j + i`. For W > H cells take the wrong samples (Findings row 4). For W < H a read leaves the list, and the source's `InitialiseBuffers` catches it and returns false. `Initialise` never gets there for W < H: it has already thrown in `GetNewNormals` (2 <= W < H) or in the texture walk (W = 1, where the mesh has no cells).
- TerrainModel.Terrain.Initialise runs those steps, so for W ≠ H its map and mesh are the corrected ones. In the source, for W > H `Initialise` returns with the wrong coordinates, normals and corners of Findings rows 1 to 4. For 2 <= W < H it throws in `GetNewNormals`, and for W = 1 in the texture walk. The 2 x 3 inputs of Findings rows 1 and 4 show those members on their own; `Initialise` on a 2 x 3 map throws in `GetNewNormals` first.
- `GetCachedNormalForPosition` searches with `Any`/`First` over the dictionary; the model uses a map lookup, which gives the same result because keys are unique.
- PlayerModel.Player.Update takes the trigonometric horizontal move and its sprint cap as the `horizontalMove` parameter. Sine, cosine and `Vector2.Normalize` are not modelled.
- The per-instance `atan2` rotation and the instance buffer update in `Foliage.Frame` are not part of this model; only the wind state machine is.
- `TimeOfDay.GetSunDirection` is not part of this model: it is a sine of the day fraction.
- `Frustrum.ConstructFrustum` is not part of this model, because it needs matrix and plane normalisation. The six planes are given. The checks are functions on an immutable value, so none of them can change the planes.
- The quad tree, camera, window loop, input polling, text and user-interface code are not part of this model.
- Static settings are literals in the model: the day length of five minutes, the texture repeat of 8 and the sky plane constants.

## Findings

| source | as written | input that shows it | evidently intended | confidence | as-written member | corrected member |
|---|---|---|---|---|---|---|
| Visualiser/Graphics/Objects/Terrain.cs:228-231 | the texture walk stores sample (i, j) at `Height * j + i` | a 2 x 3 map fills rows 0 and 1, then writes sample (0, 2) to slot 6 of a 6-entry list and throws (the walk on its own: `Initialise` on that map throws in `GetNewNormals` first, `NarrowMapFaceOverrun`, and reaches the walk's overrun only at W = 1, `OneColumnMap`); on a 3 x 2 map (2, 0) and (0, 1) both go to slot 2 | `Width * j + i`, the layout `GetIndexFromPosition` and `LoadHeightMap` use | high, not executed | TerrainGrid.TextureSlotCounterexample | TerrainGrid.TexturedEntry |
| Visualiser/Graphics/Objects/Terrain.cs:332 | face (x, z) goes to slot `z * (H - 1) + x` of a (H - 1)(W - 1) array | on a 4 x 3 map faces (2, 0) and (0, 1) share slot 2; on a 2 x 4 map the second face, (0, 1), writes slot 3 of a 3-slot array (`FaceSlotOverrun`) | `z * (W - 1) + x` | high, not executed | TerrainGrid.FaceSlotCounterexample | TerrainGrid.FaceRowsAt |
| Visualiser/Graphics/Objects/Terrain.cs:424-445 | `UpdateNormals` reads face slots with the same `H - 1` stride | the 4 x 3 and 2 x 4 maps above | `(W - 1)` as the stride | high, not executed | TerrainGrid.FaceSlotCounterexample | TerrainGrid.StoredFacesAreFresh |
| Visualiser/Graphics/Objects/Terrain.cs:642-645 | the mesh reads cell (i, j)'s corners at `H * j + i` and so on | on a 3 x 2 map cell (1, 0)'s upper-right corner is sample (1, 1) rather than (2, 1); on a 2 x 3 map cell (0, 1) first reads its upper-left corner at slot 6 of 6 (`CornerSlotsOverrun`; the mesh on its own, since `Initialise` on that map throws in `GetNewNormals` first) | `W * j + i` and so on | high, not executed | TerrainGrid.CornerSlotsCounterexample | TerrainGrid.CellCorners |
| Visualiser/Graphics/Objects/Terrain.cs:365-391 | `UpdateNormal` averages faces (x ± 1, z ± 1) under guards written for the faces touching the vertex | at the centre of a 3 x 3 map it reads faces (0, 0), (2, 0), (0, 2) and (2, 2). Called on its own, `UpdateNormal(1, 1)` throws at face (0, 2), whose lookup reads sample index 9 (lines 262-266) of the 9-entry list; an edit at the centre throws earlier, in `UpdateNormal(0, 1)`, whose face (1, 2) reads index 10 (`CentreEditFirstThrow`) | the faces (x - 1 .. x, z - 1 .. z), as `UpdateNormals` uses | high, not executed | TerrainGrid.DiagonalFacesCounterexample | TerrainGrid.TouchingFacesAreTheFacesAround |
