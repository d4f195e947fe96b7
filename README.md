# Pentagon Gymnastics diagram scripts: a Dafny model of the placement and labelling rules

The repository holds a family of Python scripts. Each script draws the Pentagon Gymnastics
system's diagrams (an ERD, a UML class diagram, a sequence diagram and a component or
architecture diagram) with matplotlib and saves them as PNG and PDF files. A further script
lists the saved files by diagram type. Almost every line of the scripts is a literal table
of coordinates and names handed to the plotting library. What this project models is the
small set of rules the scripts compute with:

- where a relationship line leaves a box (`get_box_edge_point`, and three inline rules
  that pick facing edge midpoints of centre-based boxes);
- how high a class or entity box is, how its height is split between the attribute and
  method compartments, and where each text row goes;
- display truncation, the `name (type)` attribute label, first-N line limits, lookup
  tables with defaults, and output file names;
- row-major component grids built with `//` and `%`;
- the generators' save loops, the generator object whose `save_diagram` needs a figure,
  and the result list of `generate_all_diagrams`;
- the summary script's extension filter, its sort, its first-match classification into
  four groups, and its report.

Coordinates are mathematical reals, not floats. Lower-casing covers ASCII letters only.
The file system, the clock and the plotting library are left out. Where the code needs them
(a directory's existence, its listing, a file's size, whether a save raises), they are
parameters.

Modules: `Wrappers` (Option and Result); `Geometry` (points, the two box conventions,
segments, text rows, grids); `BoxEdge`; `Labels`; `Connections`; `TextRows`;
`ClassSections`; `SaveLoop`; and one module per script: `ProfessionalDissertation`,
`ProfessionalUml`, `ImprovedGenerator`, `DiagramGenerator`, `AcademicGenerator`,
`FixedGenerator`, `DiagramSummary`.

Several lemmas state what the code does with the scripts' own constants. Three examples:
AuthController's last method falls below its box, a third-column component overhangs its
layer, and the two ERD rules disagree. Where the code evidently meant something else, the
model keeps the code as written. It then adds a corrected definition with the intended
property proved (see "## Findings").

## Model

| member | source | states |
|---|---|---|
| BoxEdge.SidePoint | professional_dissertation_diagrams.py:439-446 | the left/right branch: x is `x + w` when the target is to the right, else `x` |
| BoxEdge.TopBottomPoint | professional_dissertation_diagrams.py:447-454 | the top/bottom branch: y is `y + h` when the target is above, else `y` |
| BoxEdge.EdgePoint | professional_dissertation_diagrams.py:427-456 | needs target ≠ centre (else division by zero); when the raw offsets satisfy abs(dx) > abs(dy), x is exactly on the facing vertical edge; otherwise (ties included) y is exactly on the facing horizontal edge. professional_uml_class_diagram.py:584-613 is an identical copy |
| BoxEdge.EdgePointOnRay | professional_dissertation_diagrams.py:433-454 | for a box of positive size the result is centre + t·(target − centre) with t > 0 |
| BoxEdge.SideOnRay | professional_dissertation_diagrams.py:439-446 | the ray property on the left/right branch |
| BoxEdge.TopBottomOnRay | professional_dissertation_diagrams.py:447-454 | the ray property on the top/bottom branch |
| BoxEdge.SidePointOnBoundary | professional_dissertation_diagrams.py:439-446 | the left/right point is on the boundary when abs(dy)·w ≤ abs(dx)·h |
| BoxEdge.TopBottomPointOnBoundary | professional_dissertation_diagrams.py:447-454 | the top/bottom point is on the boundary when abs(dx)·h ≤ abs(dy)·w |
| BoxEdge.SquareEdgePointOnBoundary | professional_dissertation_diagrams.py:439-454 | for a square box the result lies on the boundary, within the chosen side |
| BoxEdge.EdgePointSide | professional_dissertation_diagrams.py:438-446 | when abs(dx) > abs(dy), the helper is the left/right branch |
| BoxEdge.EdgePointTopBottom | professional_dissertation_diagrams.py:447-454 | when abs(dx) ≤ abs(dy), the helper is the top/bottom branch |
| BoxEdge.EdgePointLeavesWideBox | professional_dissertation_diagrams.py:439-446 | a 25×20 box with a target (10, 9) from its centre gives (25, 21.25), which is not on the boundary |
| BoxEdge.EdgePointLeavesUserBox | professional_dissertation_diagrams.py:413-414 | the line from User toward Subscription leaves User's right edge line below User's bottom |
| BoxEdge.EdgePointExamples | professional_dissertation_diagrams.py:427-456 | a target due right meets the right midpoint; a target due above meets the top midpoint |
| BoxEdge.BoundaryPoint | professional_dissertation_diagrams.py:427-456 | the corrected helper: it compares abs(dx)·h with abs(dy)·w, and then x is on the facing vertical edge |
| BoxEdge.BoundaryPointOnBoundary | professional_dissertation_diagrams.py:427-456 | the corrected helper lands on the boundary of every box of positive size |
| BoxEdge.BoundaryPointAgreesOnSquares | professional_dissertation_diagrams.py:439-454 | on square boxes the corrected helper equals the helper as written |
| Geometry.CentredBox.Corner | improved_diagram_generator.py:206-209 | the corner form of a centre-based box has the same centre and size |
| Geometry.EdgeMidOnBoundary | improved_diagram_generator.py:282-295 | each side midpoint of a box lies on its boundary |
| Geometry.Midpoint | fixed_diagram_generator.py:439 | the midpoint is equally far from both ends in x and in y |
| Geometry.Rows | professional_uml_class_diagram.py:198-200 | row i sits at `start − step·i` |
| Geometry.RowsDecrease | professional_uml_class_diagram.py:198-215 | with a positive step the rows strictly decrease |
| Geometry.RowsWithin | professional_uml_class_diagram.py:198-215 | every row lies between the last row and the start |
| Geometry.GridCell | improved_diagram_generator.py:470-471 | `(i // n, i % n)`: the column is below n and `i == row·n + col` |
| Geometry.GridCellInjective | improved_diagram_generator.py:470-471 | different items get different cells |
| Geometry.CellBoxesDisjoint | improved_diagram_generator.py:470-479 | boxes of different cells no larger than the steps do not overlap |
| Geometry.GridBoxesDisjoint | diagram_generator.py:421-430 | two different items of a grid never overlap when the box fits its step |
| Labels.Take | academic_diagram_generator.py:110 | `s[:n]`: its length is `min(len(s), n)` and it is a prefix of s |
| Labels.Truncate | professional_uml_class_diagram.py:202 | the result is at most `limit` long; it is unchanged when short enough, else the first `keep` characters plus `...` |
| Labels.TruncateIdempotent | professional_dissertation_diagrams.py:641 | truncating twice is truncating once |
| Labels.TruncateCollision | professional_dissertation_diagrams.py:655 | two different labels display alike only if one was cut, and two cut labels only if they share their first `keep` characters |
| Labels.LowerChar | academic_diagram_generator.py:556 | `str.lower` on one character: ASCII upper-case letters move by 32, everything else is unchanged |
| Labels.SnakeChar | academic_diagram_generator.py:556 | `lower().replace(' ', '_')` per character: the result is never upper-case or a space |
| Labels.SnakeName | academic_diagram_generator.py:556 | the same length, each character snaked |
| Labels.SnakeNameIdempotent | fixed_diagram_generator.py:475 | a snake name has no capital and no space, and snaking it again changes nothing |
| Labels.Slug | academic_diagram_generator.py:556-563 | the file name is the prefix, then the snake name, then the extension, with the summed length |
| Labels.SlugDeterminesName | fixed_diagram_generator.py:475-481 | equal file names mean equal snake names |
| Labels.DiagramSnakeNames | academic_diagram_generator.py:543-563 | the four diagram names snake to `class_diagram`, `erd_diagram`, `sequence_diagram` and `component_diagram` |
| Labels.ContainsAt | diagram_summary.py:44-50 | the `in` test finds sub exactly when sub occurs at some offset |
| Labels.AttributeLabel | improved_diagram_generator.py:250-252 | the bare name when the type is empty, else `name + " (" + type + ")"` |
| Labels.FirstOpen | improved_diagram_generator.py:250-252 | the first `(` of a label, or its length when there is none |
| Labels.SplitLabelRoundTrip | improved_diagram_generator.py:250-252 | for names without `(`, reading a label back gives the name and the type it was built from |
| Connections.OffsetSides | improved_diagram_generator.py:279-295 | horizontal iff abs(x2 − x1) > abs(y2 − y1); the second box's side is opposite to the first's; for distinct centres both sides face the other box |
| Connections.CentreSides | improved_diagram_generator.py:822-835 | horizontal iff abs(x1 − x2) > abs(y1 − y2); opposite sides; both face the other box for distinct centres |
| Connections.ColumnSides | diagram_generator.py:261-273 | horizontal iff x1 ≠ x2; opposite sides; both face the other box for distinct centres |
| Connections.Connect | improved_diagram_generator.py:282-295 | both ends lie on their boxes' boundaries |
| Connections.OffsetAgreesWithCentre | improved_diagram_generator.py:279-295 | the offset rule and the centre rule choose the same sides exactly when the centres differ |
| Connections.CentreSidesSymmetric | academic_diagram_generator.py:441-460 | for distinct centres, swapping the boxes reverses the line |
| Connections.ColumnAgreesWithCentre | diagram_generator.py:261-273 | the column rule and the centre rule agree exactly when x1 = x2 or abs(dx) > abs(dy) |
| Connections.ColumnLineDiffers | diagram_generator.py:261-273 | where the two rules disagree, the lines start at different points |
| Connections.Sides | academic_diagram_generator.py:441-460 | every rule picks opposite sides that face each other for distinct centres |
| Connections.Link | improved_diagram_generator.py:274-295 | a line exists iff both names are registered, and its ends lie on the two boxes |
| Connections.Links | improved_diagram_generator.py:273-274 | at most one line per relationship; every line drawn is some relationship's line, every relationship with both ends registered has its line drawn, and with all ends registered the k-th line is the k-th relationship's |
| Connections.LabelPoint | academic_diagram_generator.py:470-471 | the label is at the line's midpoint, raised by a fixed lift |
| Connections.LastWins | improved_diagram_generator.py:215 | the dictionary's keys are exactly the names registered |
| Connections.LastWinsFinds | improved_diagram_generator.py:215 | with distinct names every box is found under its own name |
| Connections.Register | improved_diagram_generator.py:765 | the registration loop builds the last-wins dictionary |
| TextRows.Placement | fixed_diagram_generator.py:98-102 | line i is written at `start − step·i` and shows lines[i] |
| TextRows.PlaceLines | fixed_diagram_generator.py:98-102 | the `y -= step` loop writes the placement and ends at `start − step·n` |
| TextRows.PlacementOrdered | fixed_diagram_generator.py:156-160 | the placed texts are the lines, and their heights strictly decrease |
| TextRows.CompartmentLayout | diagram_generator.py:709-726 | a divider exists iff both compartments are non-empty; each compartment has one row per line |
| TextRows.StackCompartments | diagram_generator.py:709-726 | the compartment loop writes CompartmentLayout |
| TextRows.CompartmentsSeparated | improved_diagram_generator.py:783-800 | every attribute row is above the divider and above every method row; every method row is below the divider |
| ClassSections.RowsFor | professional_uml_class_diagram.py:196-215 | attribute row i is at `top − offset − step·i`; there is a divider iff there are methods; the methods start `offset` under it; without attributes the divider is the header line |
| ClassSections.ProportionalSplit | professional_uml_class_diagram.py:148-161 | the corrected split: the shares sum to the remaining height, in the ratio of the needs |
| ClassSections.ShareAtLeastNeed | professional_dissertation_diagrams.py:589-604 | when the remaining height covers both needs, each proportional share covers its own need |
| ClassSections.ProportionalRowsSeparated | professional_dissertation_diagrams.py:589-604 | with the proportional split, attribute rows stay above the divider and method rows between it and the bottom |
| ProfessionalDissertation.EntityHeight | professional_dissertation_diagrams.py:143-147 | `max(height, 3 + 1.5·n)`: never below the given height or the need |
| ProfessionalDissertation.EntityRows | professional_dissertation_diagrams.py:144-193 | one row per attribute (their placement is proved in `EntityRowsInside`) |
| ProfessionalDissertation.EntityRowsInside | professional_dissertation_diagrams.py:144-193 | every attribute row is inside the box, below the 3-high header |
| ProfessionalDissertation.Marker | professional_dissertation_diagrams.py:181-189 | the key marker for a primary key, else the link marker for a foreign key, else nothing |
| ProfessionalDissertation.EntityText | professional_dissertation_diagrams.py:191 | the marker, then `name: type` |
| ProfessionalDissertation.PrimaryKeyWins | professional_dissertation_diagrams.py:181-191 | a key that is both primary and foreign shows only the key marker |
| ProfessionalDissertation.EntityAttributes | professional_dissertation_diagrams.py:366 | `get(name, [])`: the table entry, or nothing |
| ProfessionalDissertation.RelationshipLine | professional_dissertation_diagrams.py:403-414 | it fails (division by zero) exactly when the two centres coincide |
| ProfessionalDissertation.RelationshipLineReversed | professional_dissertation_diagrams.py:409-414 | swapping the boxes reverses the line |
| ProfessionalDissertation.RelationshipLineAlongCentres | professional_dissertation_diagrams.py:409-414 | the line starts on the ray from the first centre toward the second |
| ProfessionalDissertation.Relationship | professional_dissertation_diagrams.py:398-401 | drawn only when both entities are placed |
| ProfessionalDissertation.CardinalityPoint | professional_dissertation_diagrams.py:458-462 | the label is 2 right of and 2 above the line end |
| ProfessionalDissertation.CardinalityLabels | professional_dissertation_diagrams.py:423-425 | both ends get their cardinality, up and to the right of the end |
| ProfessionalDissertation.MultiplicityLabels | professional_dissertation_diagrams.py:950-954 | one label per end whose text is not `uses`, `manages` or `processes`, placed at that end |
| ProfessionalDissertation.MultiplicityFiltersCardinality | professional_dissertation_diagrams.py:950-954 | equals the cardinality labels when neither text is descriptive; empty when both are; an empty text still gets a label |
| ProfessionalDissertation.SectionNeed | professional_dissertation_diagrams.py:564-565 | 0 for an empty list, else `1.3·n + 1.5` (at least 2.8) |
| ProfessionalDissertation.ClassHeight | professional_dissertation_diagrams.py:563-568 | `max(height, 3 + needs)`: never below the given height or the need |
| ProfessionalDissertation.Sections | professional_dissertation_diagrams.py:591-604 | the sections sum to `height − 3`, split 0.4/0.6 when both are present, all to the present one otherwise |
| ProfessionalDissertation.DisplayLine | professional_dissertation_diagrams.py:641 | at most 28 long; unchanged when short enough, else its first 25 characters plus `...` |
| ProfessionalDissertation.ClassBoxRows | professional_dissertation_diagrams.py:606-656 | one row per attribute and per method, placed from the 0.4/0.6 split |
| ProfessionalDissertation.UserAttributesCrossDivider | professional_dissertation_diagrams.py:589-604 | User (9 attributes, 4 methods, height 18): the last attribute is written under the methods divider, between two method rows |
| ProfessionalDissertation.ProportionalSections | professional_dissertation_diagrams.py:589-604 | the corrected split sums to `height − 3`, in proportion to the needs |
| ProfessionalDissertation.CorrectedClassBoxRows | professional_dissertation_diagrams.py:606-656 | one row per attribute and per method, placed from the proportional split |
| ProfessionalDissertation.CorrectedRowsSeparated | professional_dissertation_diagrams.py:636-656 | with the corrected split, attributes are above the divider and methods between it and the bottom, for any given height |
| ProfessionalUml.SectionNeed | professional_uml_class_diagram.py:121-122 | `2.2·n + 2`, at least 2 even for an empty list |
| ProfessionalUml.RequiredHeight | professional_uml_class_diagram.py:120-123 | `max(height, 4 + needs)` |
| ProfessionalUml.FinalHeight | professional_uml_class_diagram.py:126 | never below the given height or the need |
| ProfessionalUml.SecondMaxAddsNothing | professional_uml_class_diagram.py:120-126 | the second `max` adds nothing, and the height is at least 8 |
| ProfessionalUml.Sections | professional_uml_class_diagram.py:148-161 | the sections sum to `height − 4`, split 0.45/0.55 when both are present |
| ProfessionalUml.ClassBoxRows | professional_uml_class_diagram.py:196-215 | one row per attribute and per method, placed from the 0.45/0.55 split |
| ProfessionalUml.ClassRowsDescend | professional_uml_class_diagram.py:196-215 | the rows of each compartment strictly decrease, 2.2 apart |
| ProfessionalUml.DisplayLine | professional_uml_class_diagram.py:202 | at most 30 long; unchanged when short enough, else its first 27 characters plus `...` |
| ProfessionalUml.UserAttributesCrossDivider | professional_uml_class_diagram.py:148-161 | User (8 attributes, 4 methods, height 20): the last two attributes are written under the divider |
| ProfessionalUml.ProportionalSections | professional_uml_class_diagram.py:148-161 | the corrected split sums to `height − 4`, in proportion to the needs |
| ProfessionalUml.CorrectedClassBoxRows | professional_uml_class_diagram.py:196-215 | one row per attribute and per method, placed from the proportional split |
| ProfessionalUml.CorrectedRowsSeparated | professional_uml_class_diagram.py:196-215 | with the corrected split the compartments never overlap |
| ProfessionalUml.Details | professional_uml_class_diagram.py:416 | `get(name, {})`: the entry, or no attributes and no methods |
| ProfessionalUml.DrawClassBox | professional_uml_class_diagram.py:109-218 | the frame keeps x, y and w and grows to the final height; one truncated line per attribute and method |
| ProfessionalUml.DrawnBoxes | professional_uml_class_diagram.py:98-99 | one class box per position, in order |
| ProfessionalUml.UmlLine | professional_uml_class_diagram.py:559-570 | a missing name raises; otherwise the edge-point line between the two boxes |
| ProfessionalUml.Lines | professional_uml_class_diagram.py:418-439 | the lines before the first failure; with no failure, one per relationship |
| ProfessionalUml.ProfessionalUmlClassDiagram.constructor | professional_uml_class_diagram.py:33-36 | the figure size is stored, and there is no figure yet |
| ProfessionalUml.ProfessionalUmlClassDiagram.CreateDiagram | professional_uml_class_diagram.py:64-107 | sets the figure (before any relationship can raise) to the drawn boxes and lines; it succeeds iff no relationship fails |
| ProfessionalUml.ProfessionalUmlClassDiagram.SaveDiagram | professional_uml_class_diagram.py:669-684 | raises when no figure exists; otherwise returns `base.png` and `base.pdf`, where `base` defaults to `professional_uml_class_diagram` |
| ProfessionalUml.GenerateAndSave | professional_uml_class_diagram.py:687-699 | `main` saves `pentagon_gym_professional_uml_class.png` and `.pdf` exactly when no relationship raises; otherwise it fails with that relationship's error and saves nothing |
| ProfessionalUml.SaveBeforeCreate | professional_uml_class_diagram.py:669-672 | saving on a fresh generator always fails |
| ImprovedGenerator.EntityLines | improved_diagram_generator.py:227-256 | one `name (type)` row per attribute, from `y + h/2 − 0.9` down by 0.25 |
| ImprovedGenerator.EntityLinesReadBack | improved_diagram_generator.py:250-252 | each row reads back as its attribute |
| ImprovedGenerator.EntityLinesInBox | improved_diagram_generator.py:222-231 | the rows sit under the name line; they are inside the box iff `h > 0.9 + 0.25·(n − 1)` |
| ImprovedGenerator.ErdLine | improved_diagram_generator.py:273-306 | drawn iff both entities are registered, with the offset rule; the label is 0.2 above the midpoint |
| ImprovedGenerator.ErdLineFacing | improved_diagram_generator.py:279-295 | the start and end points, case by case, for distinct centres |
| ImprovedGenerator.ClassLine | improved_diagram_generator.py:816-847 | drawn iff both classes are registered, with the centre rule; the arrow head only for `-->`; the label is 0.15 above the midpoint |
| ImprovedGenerator.ClassLineMatchesErdLine | improved_diagram_generator.py:822-835 | the class rule draws the ERD rule's line iff the centres differ (or both boxes are flat) |
| ImprovedGenerator.ClassCompartments | improved_diagram_generator.py:777-800 | the compartment rows; attributes are above the divider and methods below |
| ImprovedGenerator.ClassRowsInBox | improved_diagram_generator.py:777-800 | the last method is inside the box iff `h > 0.85 + 0.3·(attributes + methods)` |
| ImprovedGenerator.AuthControllerOverflows | improved_diagram_generator.py:573-575 | AuthController (height 2.5, 2 attributes, 4 methods) writes its last method below its box |
| ImprovedGenerator.ComponentBox | improved_diagram_generator.py:465-479 | component i sits in column `i % 3` and row `i // 3`: x = 2 + 5.8·col (so 2, 7.8 or 13.6), y = layer top − 1.2 − 0.6·row; each box is 5.5 × 0.5 |
| ImprovedGenerator.ComponentsDisjoint | improved_diagram_generator.py:465-479 | two components of one layer never overlap |
| ImprovedGenerator.ThirdColumnOverhang | improved_diagram_generator.py:451-479 | a third-column component ends at 19.1, past the layer box's right edge at 19 |
| ImprovedGenerator.PngPath | improved_diagram_generator.py:351 | the path is `dir/pentagon_gym_…png` |
| ImprovedGenerator.GenerateAll | improved_diagram_generator.py:1064-1105 | the four PNG paths in order; `[]` when any generator raises |
| ImprovedGenerator.ExitCode | improved_diagram_generator.py:1114-1118 | status 1 iff no file was generated |
| ImprovedGenerator.Run | improved_diagram_generator.py:1107-1118 | exits 0 iff no generator raises, and then reports four files |
| DiagramGenerator.MaxLen | diagram_generator.py:673-677 | the longest length, 0 for an empty list, and attained |
| DiagramGenerator.EntitySize | diagram_generator.py:188-189 | fails iff there are no attributes; the height is `0.3·(n + 2)`; the width is 0.12 × the longest of the name and the attribute names |
| DiagramGenerator.EntityLines | diagram_generator.py:212-236 | one `name (type)` row per attribute, from `y + h/2 − 0.7` down by 0.25 |
| DiagramGenerator.EntityLinesInside | diagram_generator.py:188-214 | with the computed height every row is under the name line and above the bottom |
| DiagramGenerator.ErdLine | diagram_generator.py:259-284 | drawn iff both entities are registered, with the column rule; the label is 0.15 above the midpoint |
| DiagramGenerator.ErdLineHorizontalUnlessSameColumn | diagram_generator.py:261-273 | horizontal whenever x1 ≠ x2; vertical only within one column |
| DiagramGenerator.ClassWidth | diagram_generator.py:673-677 | `max(0.1·name, 0.08·longest attribute, 0.08·longest method) + 0.5`, where an empty list counts 0 |
| DiagramGenerator.ClassHeight | diagram_generator.py:679 | `1 + 0.25·(attributes + methods)` |
| DiagramGenerator.ClassCompartments | diagram_generator.py:703-726 | the compartment loop; the methods divider is drawn iff both lists are non-empty |
| DiagramGenerator.ClassRowsInside | diagram_generator.py:679-726 | with the computed height every row is inside the box; the last method is 0.45 above the bottom |
| DiagramGenerator.ClassLine | diagram_generator.py:742-775 | drawn iff both classes are registered, with the centre rule; the arrow head only for `-->`; the label is 0.1 above the midpoint |
| DiagramGenerator.ErdAndClassRulesAgree | diagram_generator.py:748-761 | the ERD rule and the class rule draw the same line iff the boxes share a column or abs(dx) > abs(dy) |
| DiagramGenerator.ComponentBox | diagram_generator.py:416-430 | component i sits in column `i % 4` and row `i // 4`: x = 2 + 3.8·col (between 2 and 13.4), y = layer top − 0.8 − 0.5·row; each box is 3.6 × 0.4 |
| DiagramGenerator.ComponentsFit | diagram_generator.py:399-430 | components never overlap and stay within the layer box's span from 1 to 17 |
| AcademicGenerator.ClassAttributes | academic_diagram_generator.py:366-387 | a model looks up the model table, any other type the controller table; the placeholder pair iff the name is missing |
| AcademicGenerator.ClassMethods | academic_diagram_generator.py:389-406 | the table entry, or the placeholder pair iff the name is missing |
| AcademicGenerator.EntityAttributes | academic_diagram_generator.py:408-421 | the entry, or the default; every result starts with the key-marked `id (PK)` |
| AcademicGenerator.LimitsDropNothing | academic_diagram_generator.py:110-182 | the 3-line limits of the class box (lines 110 and 120) and the 4-line limit of the entity table (line 182) never drop a table line |
| AcademicGenerator.ClassBoxText | academic_diagram_generator.py:88-122 | the separators split the box in thirds; up to 3 attributes and 3 methods, from 1 under their separators, 2.5 apart |
| AcademicGenerator.ClassRowsInsideIff | academic_diagram_generator.py:108-122 | attribute i stays above the lower separator iff `1 + 2.5·i < h/3`, and the same for methods and the bottom |
| AcademicGenerator.ModelAttributeMeetsMethod | academic_diagram_generator.py:105-122 | in a 15-high model box the third attribute is written at the height of the first method |
| AcademicGenerator.ControllerMethodBelowBox | academic_diagram_generator.py:115-122 | in a 12-high controller box the third method is 2 below the box |
| AcademicGenerator.EvenRows | academic_diagram_generator.py:108-122 | the corrected rows: n lines spaced evenly through a section |
| AcademicGenerator.EvenRowsInside | academic_diagram_generator.py:108-122 | evenly spaced rows lie strictly inside their section and strictly decrease |
| AcademicGenerator.CorrectedClassBoxText | academic_diagram_generator.py:88-122 | the corrected class box spaces each compartment's rows evenly |
| AcademicGenerator.CorrectedClassRowsSeparated | academic_diagram_generator.py:105-122 | in the corrected box every attribute is between the separators and every method between the lower separator and the bottom |
| AcademicGenerator.EntityTableText | academic_diagram_generator.py:162-184 | up to 4 attributes, from the centre down by 2.8 |
| AcademicGenerator.EntityRowsInsideIff | academic_diagram_generator.py:180-184 | row i is inside iff `2.8·i < h/2` |
| AcademicGenerator.FourthEntityRowBelowBox | academic_diagram_generator.py:180-184 | in a 16-high entity the fourth attribute is 0.4 below the box |
| AcademicGenerator.CorrectedEntityTableText | academic_diagram_generator.py:176-184 | the corrected rows are spaced evenly below the separator |
| AcademicGenerator.CorrectedEntityRowsInside | academic_diagram_generator.py:176-184 | the corrected rows lie between the separator and the bottom |
| AcademicGenerator.ClassRelationship | academic_diagram_generator.py:423-473 | drawn iff both classes exist, with the centre rule; the label is 1 above the midpoint |
| AcademicGenerator.ErdRelationship | academic_diagram_generator.py:475-521 | drawn iff both entities exist, with the centre rule; the label is at the midpoint |
| AcademicGenerator.RelationshipLoopsAgree | academic_diagram_generator.py:493-512 | both loops draw the same line; the class label is 1 higher |
| AcademicGenerator.RelationshipEndpoints | academic_diagram_generator.py:441-460 | the start and end points, in each of the four cases |
| AcademicGenerator.SequenceArrow | academic_diagram_generator.py:238-249 | drawn iff x1 ≠ x2; each end is 1 from its lifeline, at the message height |
| AcademicGenerator.SequenceArrowBetweenLifelines | academic_diagram_generator.py:238-249 | for lifelines more than 2 apart, both ends lie between them iff return messages run right to left and calls left to right |
| AcademicGenerator.MessageLabel | academic_diagram_generator.py:251-253 | centred between the lifelines, 1.5 above the arrow |
| AcademicGenerator.PairArrows | academic_diagram_generator.py:352-355 | vertical arrows from y1 to y2; all five for the first three pairs |
| AcademicGenerator.LateArrowsVanish | academic_diagram_generator.py:352-355 | from pair 3 on, no x of the list passes the guard |
| AcademicGenerator.LastPairEmpty | academic_diagram_generator.py:346-355 | with five layers the loop draws nothing from the data-access layer to the database |
| AcademicGenerator.FifteenArrows | academic_diagram_generator.py:346-355 | five layers get 15 arrows, and the database pair gets none |
| AcademicGenerator.DatabaseArrows | academic_diagram_generator.py:311-313 | the corrected database pair draws 3 arrows, at x = 35, 55 and 75 |
| AcademicGenerator.CorrectedExtendsArrows | academic_diagram_generator.py:346-355 | up to the database pair the corrected loop draws the same arrows |
| AcademicGenerator.ArrowsStep | academic_diagram_generator.py:346-355 | before the database pair both loops add the same five arrows |
| AcademicGenerator.CorrectedArrowsReachDatabase | academic_diagram_generator.py:346-355 | the corrected loop keeps the 15 arrows and adds three into the database layer |
| AcademicGenerator.AcademicClassDiagram | academic_diagram_generator.py:556 | the class diagram's PNG is `academic_class_diagram.png` |
| SaveLoop.OutputFileNames | academic_diagram_generator.py:556-563 | each name starts with the prefix, holds the diagram's snake name and ends with `.png` or `.pdf`; the two names differ |
| SaveLoop.Saved | academic_diagram_generator.py:550-573 | at most two files per diagram |
| SaveLoop.SaveDiagrams | fixed_diagram_generator.py:469-490 | the loop saves the files of every diagram that does not raise, in order |
| SaveLoop.PngNameUnique | academic_diagram_generator.py:556-563 | a PNG name belongs to one snake name only, and is never a PDF name |
| SaveLoop.SavedNamesEarlier | academic_diagram_generator.py:550-573 | no file saved earlier is the PNG of a later diagram |
| SaveLoop.SavedExactly | academic_diagram_generator.py:550-573 | with distinct names, a diagram's PNG is saved iff that diagram does not raise |
| SaveLoop.DiagramSavedExactly | fixed_diagram_generator.py:469-490 | for the four diagrams, each PNG is saved iff its diagram does not raise |
| SaveLoop.SavedPrefix | academic_diagram_generator.py:550-573 | without failures the files are each diagram's PNG and PDF, in order |
| SaveLoop.DiagramOutputFiles | academic_diagram_generator.py:543-563 | each diagram's files are the prefix, its snake name, and `.png` or `.pdf` |
| SaveLoop.AllSaved | academic_diagram_generator.py:543-563 | without failures, eight files: class, ERD, sequence and component, PNG before PDF |
| FixedGenerator.ControllerMethods | fixed_diagram_generator.py:327-335 | the entry, or the default iff the name is missing |
| FixedGenerator.ServiceMethods | fixed_diagram_generator.py:337-345 | the entry, or the default iff the name is missing |
| FixedGenerator.MiddlewareMethods | fixed_diagram_generator.py:347-355 | the entry, or the one-line default iff the name is missing |
| FixedGenerator.ModelAttributes | fixed_diagram_generator.py:357-369 | the entry, or the default iff the name is missing |
| FixedGenerator.EntityAttributes | fixed_diagram_generator.py:371-384 | the entry, or the default; every result starts with the key-marked `id (PK)` |
| FixedGenerator.ContentFor | fixed_diagram_generator.py:88-95 | controller, service and model use their own lookups; the result has 1 to 4 lines |
| FixedGenerator.OtherKindsAreMiddleware | fixed_diagram_generator.py:88-95 | any other type uses the middleware lookup |
| FixedGenerator.ClassContent | fixed_diagram_generator.py:98-102 | at most 4 lines, the first at `y − 1`, 2.5 apart, strictly decreasing |
| FixedGenerator.EntityContent | fixed_diagram_generator.py:156-160 | the same loop over entity attributes; the first line is the primary key at `y − 1` |
| FixedGenerator.RowsInsideIff | fixed_diagram_generator.py:98-102 | line i is above the bottom iff `1 + 2.5·i < h/2` |
| FixedGenerator.FourthLineOutside | fixed_diagram_generator.py:98-102 | in a box at most 16 high, a fourth line is below the box |
| FixedGenerator.Translate | fixed_diagram_generator.py:429-433 | the offset keeps the line's direction and length and moves both ends by the offset |
| FixedGenerator.LabelMovesWithLine | fixed_diagram_generator.py:429-440 | the label of the moved line is the original label, moved |
| FixedGenerator.OffsetLine | fixed_diagram_generator.py:424-440 | drawn iff both entities exist; the label is at the midpoint |
| FixedGenerator.ErdRelationship | fixed_diagram_generator.py:424-440 | the reassignment loop draws the offset line, with its label at the midpoint of the centres plus the offset |
| FixedGenerator.ClassRelationship | fixed_diagram_generator.py:398-408 | the centre-to-centre line with its label at the midpoint |
| FixedGenerator.SequenceArrow | fixed_diagram_generator.py:223-228 | always drawn, at the message height; each end is 1 from its lifeline |
| FixedGenerator.SequenceArrowShortened | fixed_diagram_generator.py:223-228 | for lifelines at least 2 apart the arrow keeps its direction, is 2 shorter, and lies between the lifelines |
| FixedGenerator.SelfMessageArrow | fixed_diagram_generator.py:226-228 | a message to the sender's own lifeline is drawn as a 2-long arrow |
| FixedGenerator.ArrowAgreesWithAcademic | fixed_diagram_generator.py:223-228 | it equals the academic arrow of a call (left to right) or of a return (right to left) |
| FixedGenerator.MessageLabel | fixed_diagram_generator.py:231-232 | centred between the lifelines, 1 above the arrow |
| FixedGenerator.FixedErdDiagram | fixed_diagram_generator.py:475 | the ERD's PNG is `pentagon_gym_erd_diagram.png` |
| DiagramSummary.DiagramFiles | diagram_summary.py:28 | a name is kept iff it is listed and ends in `.png` or `.pdf` |
| DiagramSummary.LexLeTotal | diagram_summary.py:29 | string order is total |
| DiagramSummary.LexLeTransitive | diagram_summary.py:29 | string order is transitive |
| DiagramSummary.Insert | diagram_summary.py:29 | inserting adds exactly one occurrence of the name |
| DiagramSummary.InsertSorted | diagram_summary.py:29 | inserting into a sorted list keeps it sorted |
| DiagramSummary.SortNames | diagram_summary.py:29 | the result is sorted and a permutation of the input |
| DiagramSummary.Lower | diagram_summary.py:44 | the same length, each character lower-cased |
| DiagramSummary.Classify | diagram_summary.py:43-51 | first match wins: `erd`, then `uml` or `class`, then `sequence`, then `architecture`, else unlisted |
| DiagramSummary.Members | diagram_summary.py:43-51 | a group never holds more names than the files (membership is proved in `MembersExactly`) |
| DiagramSummary.MembersExactly | diagram_summary.py:43-51 | a name is in a group iff it is one of the files and classifies there |
| DiagramSummary.AtMostOneGroup | diagram_summary.py:43-51 | no file lands in two groups |
| DiagramSummary.MembersSorted | diagram_summary.py:29-51 | groups built from a sorted list are sorted |
| DiagramSummary.GroupFiles | diagram_summary.py:43-51 | the appending loop builds each group's members, in order |
| DiagramSummary.Report | diagram_summary.py:53-55 | only non-empty groups are reported, each with its files, in the dictionary's order |
| DiagramSummary.ReportShowsNonEmpty | diagram_summary.py:36-55 | a group is reported iff it is non-empty |
| DiagramSummary.ReportFromFiles | diagram_summary.py:28-55 | grouping the sorted diagram files of a listing reports sorted groups holding only listed diagram files of their own group |
| DiagramSummary.Row | diagram_summary.py:59-65 | PNG iff the name ends in `.png`, else PDF; `kb·1024` is the byte count |
| DiagramSummary.Summarize | diagram_summary.py:21-55 | a missing directory gives only the message; otherwise the total, the sorted filtered names (a permutation of the diagram files), the report of the four groups of those names in order, and groups whose every file is a listed diagram file of that group |

## Left out

- All drawing: patches, text, arrows, lines, legends, colours, fonts, `savefig` and
  `tight_layout`. They are calls into the plotting library. What is modelled is where
  things go and what they say.
- Floating-point rounding. Coordinates are exact reals, so `0.1 + 0.2` is exactly `0.3`.
- The arrowhead, diamond and multiplicity-offset geometry of the UML script's
  `create_inheritance`, `create_composition` and `create_aggregation`. It uses `atan2`,
  `cos` and `sin`, and no exact real model of those exists.
- `os.makedirs`, `os.listdir`, `os.path.exists`, `os.path.getsize`, `datetime.now()`
  and all printed progress text. The directory's existence, its listing and the file sizes
  are parameters of `DiagramSummary.Summarize` and `DiagramSummary.Row`. The `:.1f`
  formatting of the size is not modelled.
- sequence_diagram_generator.py and advanced_sequence_diagrams.py are not part of this
  model. They draw fixed coordinates with constant offsets.
- generate_all_diagrams.py is not part of this model. It only orchestrates and checks
  imports.
- The literal schema and class tables of the professional scripts are treated as sample
  inputs (`ProfessionalDissertation.EntityAttributes` and `ProfessionalUml.Details` take
  the table as a parameter). The academic and fixed scripts' lookup tables are copied in
  full, because their contents and defaults are what those lookups promise.
- DiagramSummary.SortNames: `list.sort` is a library routine that sorts in place. It is
  modelled as an insertion sort on a sequence that returns a new sorted permutation. The
  in-place update and the stability of Timsort are not modelled. Stability cannot be
  observed on equal strings.
- DiagramSummary.Lower: `str.lower` is modelled on ASCII letters only. Non-ASCII
  characters are left unchanged.
- Labels.LowerChar: the same ASCII-only restriction applies to the output file slugs.
- SaveLoop.Saved: in a failing diagram, the model saves neither file. In the code, a
  diagram whose PDF save raises after its PNG was written keeps the PNG. Which `savefig`
  raises is not modelled, only which diagram fails.
- ImprovedGenerator.GenerateAll: the PDF files each generator also writes are not in the
  returned list, and the model does not track them.
- ProfessionalUml.ProfessionalUmlClassDiagram.CreateDiagram: the figure is a value
  holding the boxes and lines, not the plotting library's figure object. `self.ax` is
  not modelled.
- DiagramGenerator.EntitySize: the "empty attribute list" failure is the `max()` error
  the code raises. The model reports it as a `Failure` value rather than an exception.
- BoxEdge.EdgePoint: the boundary property is stated only for square boxes
  (`BoxEdge.SquareEdgePointOnBoundary`), because it is false in general (see "## Findings").

## Findings

| source | as written | input that shows it | evidently intended | confidence | as-written member | corrected member |
|---|---|---|---|---|---|---|
| professional_dissertation_diagrams.py:439-454 (copied at professional_uml_class_diagram.py:596-611) | it picks the left/right edge when the raw abs(dx) > abs(dy), ignoring the box's proportions | box (0, 0, 25, 20) with target (22.5, 19): the result (25, 21.25) is above the box; the dissertation ERD's User → Subscription line starts below User | the point where the centre-to-target ray crosses the boundary: compare abs(dx)·h with abs(dy)·w | high; not executed | BoxEdge.EdgePointLeavesWideBox | BoxEdge.BoundaryPointOnBoundary |
| professional_dissertation_diagrams.py:589-604 | the fixed 0.4/0.6 split of the height below the name | User with 9 attributes, 4 methods, given height 18: height 22.9, divider 11.94 above the bottom, last attribute 9.0 above it | sections in proportion to what their rows need, so attributes stay above the divider | medium; not executed | ProfessionalDissertation.UserAttributesCrossDivider | ProfessionalDissertation.CorrectedRowsSeparated |
| professional_uml_class_diagram.py:148-161 | the fixed 0.45/0.55 split of `final_height − 4` | User with 8 attributes, 4 methods, given height 20: height 34.4, divider 16.72 above the bottom, attributes at 16.2 and 14.0 | the proportional split | medium; not executed | ProfessionalUml.UserAttributesCrossDivider | ProfessionalUml.CorrectedRowsSeparated |
| academic_diagram_generator.py:352-353 | the guard `i < 3 or x in [35, 55, 75]` tests xs drawn from `[20, 40, 60, 80, 100]`, so its second half never holds | the fourth layer pair (data access to database): no arrow is drawn | arrows at the database components' x = 35, 55 and 75 for the last pair | medium; not executed | AcademicGenerator.FifteenArrows | AcademicGenerator.CorrectedArrowsReachDatabase |
| academic_diagram_generator.py:108-122 | rows start 1 under each separator and step a fixed 2.5 | a 15-high model class with 3 attributes writes its third attribute at the height of its first method; a 12-high controller writes its third method 2 below the box | rows spaced evenly within their compartment | medium; not executed | AcademicGenerator.ModelAttributeMeetsMethod | AcademicGenerator.CorrectedClassRowsSeparated |
| academic_diagram_generator.py:180-184 | rows start at the centre and step a fixed 2.8 | a 16-high entity with 4 attributes writes the fourth 0.4 below its box | rows spaced evenly between the separator and the bottom | medium; not executed | AcademicGenerator.FourthEntityRowBelowBox | AcademicGenerator.CorrectedEntityRowsInside |
