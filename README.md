# PyGCEditor add-ons, modelled in Dafny

This project models the three add-on scripts of PyGCEditor that work on a
galaxy map of named planets with 2D coordinates:

- **Quadrant selection regions** (`addOns/Quadrant.py`). A `Quadrant` is an
  open axis-aligned rectangle. A `QuadrantSuperposition` is the union of a
  list of quadrants. Both are pure datatypes (module `Quadrants`).
- **The Lua planet database exporter** (`addOns/LuaPlanetDataBaseCreator.py`).
  - `TextLines` is a class whose `lines` field the methods update in place
    (module `LuaText`).
  - The layout rules are pure functions over `seq<string>`: indentation,
    commas, quoting, rendering, and the `name = { ... }` table.
  - `getConnections` builds a planet's neighbour list (module `Connectivity`).
  - The table builders `createLuaTable`, `mergeWithCommas`,
    `createPlanetData`, `createCampaignSpecificTable` and
    `createPlanetDatabaseTable` are methods over `TextLines` objects (module
    `LuaDatabase`). Each is proved to produce the lines of a pure
    specification function.
- **The mass planet migration script** (`addOns/MassPlanetMigration.py`).
  - Selection criteria and the filtering of migrating planets are in module
    `Selection`.
  - The in-place shift and stretch of planet coordinates, the move-type
    dispatch and the name-to-coordinates map are in module `Migration`.

`Galaxy` holds the entities shared by the scripts:
- `Planet` is a class with a constant name and containing file and mutable
  `x`/`y`. The model compares planets by identity.
- `TradeRoute`, `Campaign` and `Repository` are values.

`Wrappers` holds `Option`, `Result` and the Python exceptions the modelled
code can raise.

Coordinates are exact `real`s. The distance test `sqrt(dx² + dy²) < d` is
decided as `0 < d && dx² + dy² < d²`. `Connectivity.WithinReachIsDistanceBelow`
proves this agrees with comparing the true distance, for every threshold.

Configuration globals of the scripts are explicit parameters:
- `ExportConfig` holds `campaigns`, `autoConnectionDistance` and `ignore`.
- `SelectionConfig` holds `useSelectionCriteria`, `campaigns`, `files`,
  `areas`, the custom function, the `allowMigration` formula and `ignore`.
- `MovementConfig` holds `selectedMoveType`, `offset`, `stretchFactor`,
  `rotationAngle` and `pointOfReference`.

Each has a constant or function holding the values the script ships with.

The trade-route pass of `getConnections` does not consult `ignore`
(LuaPlanetDataBaseCreator.py:108-112): a route to an ignored planet still
makes it a neighbour. Only the auto-connection pass skips ignored planets.
The model follows the code.

## Model

| member | source | states |
|---|---|---|
| Quadrants.NewQuadrant | addOns/Quadrant.py:16-24 | ValueError exactly when a range does not hold two bounds; otherwise the bounds are stored as given, inverted or not |
| Quadrants.Quadrant.Contains | addOns/Quadrant.py:26-27 | a contained point lies strictly inside: the quadrant is not inverted, both ranges are proper, and the point is on no boundary line |
| Quadrants.NonEmptyIff | addOns/Quadrant.py:26-27 | a quadrant contains some point iff min < max on both axes, since `contains` is strict on all four sides |
| Quadrants.BoundaryExcluded | addOns/Quadrant.py:27 | no point on any of the four boundary lines is contained |
| Quadrants.InvertedContainsNothing | addOns/Quadrant.py:19-27 | an inverted range is accepted, flagged as inverted, and the quadrant contains no point |
| Quadrants.DefaultQuadrantEmpty | addOns/Quadrant.py:16-27 | the default `Quadrant()` with ranges [0,0] is built and contains no point |
| Quadrants.TenByTenExample | addOns/Quadrant.py:16-27 | `Quadrant([0,10],[0,10])` contains (5,5) but neither (0,5) nor (10,10) |
| Quadrants.QuadrantSuperposition.Contains | addOns/Quadrant.py:9-13 | a superposition contains a point iff one of its quadrants does |
| Quadrants.AnyContains | addOns/Quadrant.py:9-13 | the search over the member quadrants returns true iff some quadrant contains the point |
| Quadrants.EmptySuperpositionContainsNothing | addOns/Quadrant.py:6-13 | the default, empty superposition contains nothing |
| Quadrants.SuperpositionOrderIrrelevant | addOns/Quadrant.py:9-13 | two superpositions listing the same quadrants, in any order or multiplicity, contain the same points |
| LuaText.Indent | addOns/LuaPlanetDataBaseCreator.py:23-25 | `indent(n)` is 2·n spaces |
| LuaText.Indented | addOns/LuaPlanetDataBaseCreator.py:162-165 | same number of lines, line k becomes `indent(n)` + old line k |
| LuaText.UnindentIndented | addOns/LuaPlanetDataBaseCreator.py:162-165 | indenting loses nothing: dropping the first 2·n characters gives the lines back |
| LuaText.WithCommas | addOns/LuaPlanetDataBaseCreator.py:156-159 | same count; every line but the last gets a trailing comma; the last is unchanged |
| LuaText.WithTrailingComma | addOns/LuaPlanetDataBaseCreator.py:77 | only the last line of a non-empty block gets a comma |
| LuaText.Quoted | addOns/LuaPlanetDataBaseCreator.py:139-143 | `asStrings` wraps each element in double quotes, keeping order and count |
| LuaText.UnquoteQuoted | addOns/LuaPlanetDataBaseCreator.py:139-143 | quoting is invertible: stripping the quotes gives the values back |
| LuaText.RenderedAppend | addOns/LuaPlanetDataBaseCreator.py:168-172 | rendering a concatenation is the concatenation of the renderings |
| LuaText.RenderedLength | addOns/LuaPlanetDataBaseCreator.py:168-172 | the text is as long as all lines together plus one newline per line |
| LuaText.SplitRendered | addOns/LuaPlanetDataBaseCreator.py:168-172 | when no line holds a newline, splitting the text at its newlines gives the lines back |
| LuaText.LuaTableLayout | addOns/LuaPlanetDataBaseCreator.py:99-100 | a table is `name = {`, each content line indented by two spaces, then `}`: content length + 2 lines |
| LuaText.TableBodyRecovered | addOns/LuaPlanetDataBaseCreator.py:99-100 | the content can be read back from the table's inner lines |
| LuaText.MergedLength | addOns/LuaPlanetDataBaseCreator.py:69-81 | merging neither adds nor drops a line: the count is the sum of the blocks' counts |
| LuaText.MergedFewBlocks | addOns/LuaPlanetDataBaseCreator.py:69-81 | merging no block gives nothing; merging one block gives it unchanged |
| LuaText.MergedAt | addOns/LuaPlanetDataBaseCreator.py:69-81 | each line of each block lands at the block's offset, unchanged except a comma on the last line of every block but the last |
| LuaText.TextLines.constructor | addOns/LuaPlanetDataBaseCreator.py:132-135 | the new buffer holds a copy of the given lines |
| LuaText.TextLines.AsStrings | addOns/LuaPlanetDataBaseCreator.py:139-143 | a new buffer whose lines are the quoted values |
| LuaText.TextLines.Add | addOns/LuaPlanetDataBaseCreator.py:146-148 | the other buffer's lines are appended to this one |
| LuaText.TextLines.Append | addOns/LuaPlanetDataBaseCreator.py:151-153 | one line is appended at the end |
| LuaText.TextLines.AddCommas | addOns/LuaPlanetDataBaseCreator.py:156-159 | in place, the lines become `WithCommas` of the old lines |
| LuaText.TextLines.AddIndent | addOns/LuaPlanetDataBaseCreator.py:162-165 | in place, every line is prefixed by n indent levels and nothing else changes |
| LuaText.TextLines.ToSingleStr | addOns/LuaPlanetDataBaseCreator.py:168-172 | the text is every line followed by a newline, in order |
| Connectivity.SquaredDistance | addOns/LuaPlanetDataBaseCreator.py:123-124 | the square of the distance is never negative and is zero from a planet to itself |
| Connectivity.WithinReach | addOns/LuaPlanetDataBaseCreator.py:117-124 | nothing is within reach of a threshold that is not positive; a planet is within reach of itself for every positive threshold, which is why the auto pass skips the planet itself |
| Connectivity.WithinReachIsDistanceBelow | addOns/LuaPlanetDataBaseCreator.py:117-124 | the squared-distance test is exactly "Euclidean distance < threshold", for any threshold |
| Connectivity.RouteNamesIff | addOns/LuaPlanetDataBaseCreator.py:108-112 | a name comes from the route pass iff some route joins that planet to this one |
| Connectivity.AutoCandidateIff | addOns/LuaPlanetDataBaseCreator.py:115-118 | the auto pass accepts exactly the other, non-ignored planets strictly closer than the threshold |
| Connectivity.ConnectionsNoDuplicates | addOns/LuaPlanetDataBaseCreator.py:105-120 | the neighbour list names no planet twice |
| Connectivity.ConnectionsMembership | addOns/LuaPlanetDataBaseCreator.py:105-120 | a name is a neighbour iff a route joins it (ignored or not), or it is another non-ignored planet strictly within reach |
| Connectivity.RoutePartnersFirst | addOns/LuaPlanetDataBaseCreator.py:107-118 | the list starts with the route partners, each once, in route order; auto connections follow |
| Connectivity.FarPlanetNotConnected | addOns/LuaPlanetDataBaseCreator.py:115-124 | a planet at exactly the threshold distance or farther, joined by no route, is not a neighbour |
| Connectivity.ThreePlanetsExample | addOns/LuaPlanetDataBaseCreator.py:105-124 | planets at 0, 50 and 200 with threshold 100: the first is connected to the second only |
| Connectivity.ThreePlanetsShipped | addOns/LuaPlanetDataBaseCreator.py:19-21 | the same example under the shipped configuration, whose auto-connection distance is 100 and which ignores only Galaxy_Core_Art_Model |
| Connectivity.GetConnections | addOns/LuaPlanetDataBaseCreator.py:105-120 | the two accumulating loops produce exactly `Connections`, the deduplicated route partners followed by the auto candidates |
| LuaDatabase.ClosedCount | addOns/LuaPlanetDataBaseCreator.py:75-78 | how many blocks the loop closes with a comma: all but the last, or up to the first empty one |
| LuaDatabase.MergedIsClosedPrefix | addOns/LuaPlanetDataBaseCreator.py:75-81 | the merged lines are the comma-closed leading blocks followed by the last block |
| LuaDatabase.CreateLuaTable | addOns/LuaPlanetDataBaseCreator.py:99-100 | returns a new buffer holding `LuaTable(name, content)`; the content buffer is left indented in place |
| LuaDatabase.MergeWithCommas | addOns/LuaPlanetDataBaseCreator.py:69-81 | no IndexError iff no block but the last is empty; then the new buffer holds `Merged` of the blocks; the leading blocks are left comma-closed in place |
| LuaDatabase.PlanetDataLayout | addOns/LuaPlanetDataBaseCreator.py:83-89 | a planet table is `name = {`, `  ConnectedTo = {`, the quoted neighbours four spaces in with commas between them, `  }`, `}` |
| LuaDatabase.ItemLine | addOns/LuaPlanetDataBaseCreator.py:85 | entry k of the `ConnectedTo` list is the quoted name, with a comma unless it is the last |
| LuaDatabase.CreatePlanetData | addOns/LuaPlanetDataBaseCreator.py:83-89 | returns a new buffer holding the planet table of the planet's neighbour list |
| LuaDatabase.ExportedSound | addOns/LuaPlanetDataBaseCreator.py:62-64 | every exported position holds a planet whose name is not ignored |
| LuaDatabase.ExportedComplete | addOns/LuaPlanetDataBaseCreator.py:62-64 | every planet whose name is not ignored is exported |
| LuaDatabase.ExportedIncreasing | addOns/LuaPlanetDataBaseCreator.py:62-64 | exported planets keep the order of the planet list |
| LuaDatabase.PlanetBlocksCount | addOns/LuaPlanetDataBaseCreator.py:62-64 | one planet table per exported planet |
| LuaDatabase.PlanetBlocksAt | addOns/LuaPlanetDataBaseCreator.py:62-64 | the k-th planet table is that of the k-th exported planet |
| LuaDatabase.CollectPlanetData | addOns/LuaPlanetDataBaseCreator.py:61-64 | the loop yields new, distinct buffers holding the planet tables of the non-ignored planets, in order |
| LuaDatabase.CreateCampaignSpecificTable | addOns/LuaPlanetDataBaseCreator.py:60-67 | returns a new buffer holding the campaign table: the merged planet tables inside `alias = { ... }` |
| LuaDatabase.AliasedSound | addOns/LuaPlanetDataBaseCreator.py:50-55 | every campaign given a table has an alias |
| LuaDatabase.AliasedComplete | addOns/LuaPlanetDataBaseCreator.py:50-56 | every campaign with an alias is given a table; the others are skipped |
| LuaDatabase.AliasedIncreasing | addOns/LuaPlanetDataBaseCreator.py:50-56 | the aliased campaigns are taken in increasing position, so their tables keep the campaigns' order |
| LuaDatabase.DatabaseBlocksAt | addOns/LuaPlanetDataBaseCreator.py:50-56 | the k-th campaign table belongs to the k-th campaign with an alias |
| LuaDatabase.AllCampaignTablesNonEmpty | addOns/LuaPlanetDataBaseCreator.py:60-67 | every campaign table has at least its header and closing brace, so merging never raises |
| LuaDatabase.CollectCampaignTables | addOns/LuaPlanetDataBaseCreator.py:49-56 | the loop yields new, distinct buffers holding the tables of the aliased campaigns, in order |
| LuaDatabase.CreatePlanetDatabaseTable | addOns/LuaPlanetDataBaseCreator.py:48-58 | returns a new buffer holding the campaign tables, comma-separated, inside `PlanetDataBase = { ... }` |
| Selection.SelectByCampaign | addOns/MassPlanetMigration.py:173-177 | true iff some campaign whose name is selected holds the planet; unknown names give false |
| Selection.SelectByFile | addOns/MassPlanetMigration.py:179-182 | true iff one of the selected files is the planet's containing file |
| Selection.SelectByQuadrant | addOns/MassPlanetMigration.py:184-185 | true iff one of the selected quadrants contains the planet's current position |
| Selection.SelectByCustomCriterion | addOns/MassPlanetMigration.py:187-190 | without a selection function every planet is selected; with one, exactly the planets it accepts |
| Selection.Criterion | addOns/MassPlanetMigration.py:192-208 | the dispatch table knows exactly the five criteria; any other name is a KeyError; `all` always holds |
| Selection.CriterionMeanings | addOns/MassPlanetMigration.py:170-190 | what `all`, `campaigns`, `files`, `quadrants` and `custom` decide; `custom` holds when no function is given |
| Selection.AllowedByBasicCriteria | addOns/MassPlanetMigration.py:206-210 | allowed iff every listed criterion holds; a KeyError iff an unknown name is reached before a criterion fails |
| Selection.BasicSelectionIff | addOns/MassPlanetMigration.py:205-212 | with a non-empty list of known criteria, a planet is allowed iff every criterion selects it |
| Selection.AllowMigration | addOns/MassPlanetMigration.py:34-35 | the shipped formula: a planet in the selected area is allowed; otherwise it needs both a selected campaign and a selected file; the custom result is not consulted |
| Selection.AllowedByAdvancedCriteria | addOns/MassPlanetMigration.py:214-215 | the configured formula applied to what the four criteria decide: campaign membership, file, area and custom function |
| Selection.ShippedFormula | addOns/MassPlanetMigration.py:34-35 | with the shipped formula the advanced criteria allow a planet iff it is in the area, or in both a selected campaign and a selected file |
| Selection.BuildSelectionCriteriaAsWritten | addOns/MassPlanetMigration.py:205-217 | the builder as written fails with UnboundLocalError exactly when the criterion list is empty |
| Selection.EmptyCriteriaFinding | addOns/MassPlanetMigration.py:205-217 | with no criterion the written builder fails, while the intended one decides by the configured `allowMigration` formula |
| Selection.BuildSelectionCriteria | addOns/MassPlanetMigration.py:205-217 | the intended builder: the formula combiner for an empty list, and wherever the written builder returns, the same predicate |
| Selection.DefaultSelection | addOns/MassPlanetMigration.py:20-23 | with the shipped configuration the selector allows a planet iff a campaign named Sandbox_Large_Stargate_Universe_Tauri holds it |
| Selection.MigratingExactly | addOns/MassPlanetMigration.py:72-80 | a successful filtering keeps exactly the non-ignored planets the selector allows |
| Selection.MigratingCount | addOns/MassPlanetMigration.py:72-80 | a kept planet appears as often as the repository lists it; a planet that is not selected does not appear |
| Selection.MigratingInOrder | addOns/MassPlanetMigration.py:76-78 | the kept planets are in repository order |
| Selection.MigratingFails | addOns/MassPlanetMigration.py:76-78 | the filtering fails iff the selector fails on some non-ignored planet; ignored planets are never handed to it |
| Selection.DefaultMigrating | addOns/MassPlanetMigration.py:72-80 | with the shipped configuration the filtering never fails, and a planet migrates iff it is listed, its name is not ignored and a campaign named Sandbox_Large_Stargate_Universe_Tauri holds it |
| Selection.ConsiderPlanet | addOns/MassPlanetMigration.py:76-79 | one round of the loop extends the filtering of the first i planets to the first i + 1 |
| Selection.DetermineMigratingPlanets | addOns/MassPlanetMigration.py:72-80 | the loop returns exactly `Migrating` of the repository's planets |
| Migration.Position | addOns/MassPlanetMigration.py:120-121 | the planet's current x and y |
| Migration.ShiftUndone | addOns/MassPlanetMigration.py:127-131 | shifting by -origin and then by +origin restores every position |
| Migration.IdentityStretchRestores | addOns/MassPlanetMigration.py:127-131 | an identity action (stretch by 1) in shifted coordinates restores every position |
| Migration.StretchOnce | addOns/MassPlanetMigration.py:135-143 | a planet listed once ends at origin + factor·(old − origin) |
| Migration.StretchFixesOrigin | addOns/MassPlanetMigration.py:135-143 | a planet at the point of reference does not move |
| Migration.ShiftPlanet | addOns/MassPlanetMigration.py:116-118 | one planet moves by the shift vector |
| Migration.ShiftCoords | addOns/MassPlanetMigration.py:115-118 | every listed planet moves by the shift, once per listing; no other planet is touched |
| Migration.StretchPlanet | addOns/MassPlanetMigration.py:141-143 | one planet's position is scaled by the factor |
| Migration.StretchPlanetsWrtOrigin | addOns/MassPlanetMigration.py:140-143 | every listed planet is scaled about (0, 0), once per listing; no other planet is touched |
| Migration.PerformAction | addOns/MassPlanetMigration.py:130 | calling the action moves every listed planet as the action prescribes, once per listing |
| Migration.PerformActionInShiftedCoords | addOns/MassPlanetMigration.py:127-131 | every listed planet ends at the action applied in coordinates centred on the origin |
| Migration.StretchPlanetPositions | addOns/MassPlanetMigration.py:135-138 | every listed planet's offset from the origin is scaled by the factor |
| Migration.GetMovementAction | addOns/MassPlanetMigration.py:90-110 | `offset`, `stretch` and `rotation` give their movement with the configured parameters; any other name is a KeyError |
| Migration.DefaultMovementIsShift | addOns/MassPlanetMigration.py:43-46 | the shipped configuration shifts by (100, 100) |
| Migration.PerformMovement | addOns/MassPlanetMigration.py:92-96 | the shift movement moves every listed planet by the offset; the stretch movement scales each one's offset from the point of reference |
| Migration.PerformPlanetsMovement | addOns/MassPlanetMigration.py:86-88 | an unknown move type is a KeyError and no planet moves; `offset` shifts and `stretch` stretches every listed planet, once per listing |
| Migration.CoordsByNameKeys | addOns/MassPlanetMigration.py:228-232 | the keys are exactly the names of the listed planets |
| Migration.CoordsByNameLastWins | addOns/MassPlanetMigration.py:228-232 | a name maps to the position of the last planet listed with that name |
| Migration.GetPlanetCoordsByNameDict | addOns/MassPlanetMigration.py:228-232 | the loop builds exactly `CoordsByName` of the planets |

## Left out

- `writePlanetDatabaseLuaTable` (LuaPlanetDataBaseCreator.py:31-42), `migratePlanets` and `writeCoordinates` (MassPlanetMigration.py:59-68, 222-226): configuration loading, repository construction and file I/O through `Config`, `RepositoryCreator`, `XMLReader` and `XMLWriter`, which are not part of this model. Their pure parts are modelled: `toSingleStr` and `getPlanetCoordsByNameDict`.
- Rotation (`rotatePlanets`, `rotatePlanetsAroundOrigin`, `rotationMatrix`, MassPlanetMigration.py:147-163): floating-point trigonometry. `getMovementAction` still returns the rotation movement, but no action is modelled for it.
- Migration.PerformPlanetsMovement: requires a move type other than `rotation`, whose action is left out (see above). Migration.PerformMovement likewise takes only the shift and stretch movements.
- The rounding to `coordDecimals` in `setPosition` (MassPlanetMigration.py:123-125): coordinates are exact reals, and each update is the unrounded value.
- The `min_x` … `max_y` properties of `Quadrant` (Quadrant.py:29-43) refer to unbound global names and fail when used. The constructor's warning `print` (Quadrant.py:20) is output only. The model keeps the condition under which it prints (`Quadrants.Quadrant.Inverted`).
- Selection.CustomSelection: the custom selection function is a total function of the planet and the repository. It sees planets by identity and their constant fields, but not their current coordinates.
- Selection.DetermineMigratingPlanets: uses the corrected builder `BuildSelectionCriteria`. With an empty criterion list, the code as written fails before the loop (see Findings).
- LuaDatabase.MergeWithCommas: requires the buffers to be distinct objects. The code would put two commas on a buffer listed twice; no caller passes such a list, since every caller builds new buffers. When a non-last buffer is empty the code raises IndexError; the model returns `ok == false` and states only which buffers were closed before that point.
- LuaText.TextLines.Add: `add`, `append`, `addCommas` and `addIndent` return `self` so calls can be chained. The Dafny methods return nothing, and callers use the same object.
- LuaDatabase.CreateCampaignSpecificTable: the tables are specified from the positions and neighbour lists at entry. The methods only allocate new buffers and never move a planet, so these are the positions the code reads.
- Python lists of planets and routes are sequences. Planet equality is object identity, because `Planet`'s own equality is not part of this model.

## Findings

| source | as written | input that shows it | evidently intended | confidence | as-written member | corrected member |
|---|---|---|---|---|---|---|
| addOns/MassPlanetMigration.py:205-217 | with an empty `useSelectionCriteria` the function returns `migrationAllowedByBasicCriteria`, which is bound only inside the `if` at line 205, so it raises UnboundLocalError | `useSelectionCriteria = []`, the case the comment at line 33 invites | return `migrationAllowedByAdvancedCriteria`, the configured `allowMigration` formula over the four predicates | high (not executed) | Selection.BuildSelectionCriteriaAsWritten | Selection.BuildSelectionCriteria |
