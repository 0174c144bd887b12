# Denkmann cube: labels, shell enumeration and hover/selection

This project models the game logic of the Denkmann scene (`src/index.js`).
The scene is a 4 x 4 x 4 grid, and only its outer shell of 56 small cubes is
built. Each cube carries a label such as `"7A"`, read from six hand-written
face tables. Two players take turns clicking cubes. A click colours the cube
blue or red and keeps its label visible. When the pointer moves onto an
unselected cube, that cube is darkened, enlarged and shows its label. The
exception is a pointer that moves back to the previously hovered cube from a
selected one: that cube then stays idle (see `Interaction.StaleHover`).

The model has five modules:

- `Wrappers` holds `Option`, which stands for a JavaScript value that may be `null`.
- `Cells` holds the grid cells, the shell predicate and the loops' visiting order.
- `Labels` models `getCubeCoordinate`: the six tables, the face priority chain and a decoder for the label naming scheme.
- `Shell` models `createCubes` as a method with three nested loops. It is proved against a recursive description of the cells kept so far.
- `Interaction` models the two mouse handlers as pure functions on a `State`, which holds every cube's look plus `hoveredCube` and `isPlayerOneTurn`. The class `Scene` holds the same data in fields that its methods update in place. Each method is proved equal to the pure function.

Cubes are identified by their index in the cube group. The raycast is an
input: the first non-label object under the pointer, or nothing.

## Model

| member | source | states |
|---|---|---|
| Labels.Lookup | src/index.js:128-136 | the cell gets a table entry exactly when it lies on the shell; the entry is on a face whose plane holds the cell; no face earlier in the chain (front, back, left, right, top, bottom) holds it; every index, `3 - z` included, is inside its table |
| Labels.CubeCoordinate | src/index.js:88-137 | `null` exactly for interior cells; any other cell gets the entry `Lookup` selects |
| Labels.CellOf | src/index.js:128-133 | the inverse of the chain on the entries it can reach: the cell lies on that face's plane, and `Lookup` of it returns the entry |
| Labels.LookupReachable | src/index.js:128-133 | every shell cell reads a reachable entry, and `CellOf` gives the cell back |
| Labels.LayerOf | src/index.js:90-125 | a letter the naming scheme accepts names a layer inside the grid, 0..3 |
| Labels.DecodeLabel | src/index.js:90-125 | reading a label back yields only cells inside the grid |
| Labels.FrontEntriesDecode | src/index.js:90-95 | every front entry names its own cell under the naming scheme, including the swapped "3C"/"2C" |
| Labels.BackEntriesDecode | src/index.js:96-101 | every back entry names its own cell |
| Labels.LeftEntriesDecode | src/index.js:102-107 | the reachable left entries (columns 1 and 2) name their own cells |
| Labels.RightEntriesDecode | src/index.js:108-113 | the reachable right entries, read at `3 - z`, name their own cells |
| Labels.TopEntriesDecode | src/index.js:114-119 | the reachable top entries (middle 2 x 2, indexed by x first) name their own cells |
| Labels.BottomEntriesDecode | src/index.js:120-125 | the reachable bottom entries, read at `[x][3 - z]`, name their own cells |
| Labels.EntryDecodes | src/index.js:89-126 | every reachable entry decodes to the cell it is read for |
| Labels.LabelRoundTrip | src/index.js:88-137 | decoding the label of any shell cell gives that cell back |
| Labels.LabelsDistinct | src/index.js:88-137 | two different shell cells never share a label |
| Labels.PlaceholdersUnreachable | src/index.js:102-125 | the entries "FF", "CC", "XX", "AD" and the second "4A" at `bottom[3][3]` lie outside what the chain can reach |
| Labels.PlaceholdersNeverReturned | src/index.js:88-137 | no shell cell is labelled "FF", "CC", "XX" or "AD", and none reads `bottom[3][3]` |
| Cells.CellAt | src/index.js:157-159 | step `k` of the nested loops is a grid cell whose visiting position is `k` |
| Cells.CellAtIndex | src/index.js:157-159 | the visiting position is a bijection between grid cells and 0..63 |
| Cells.IndexInjective | src/index.js:157-159 | distinct grid cells are visited at distinct steps |
| Shell.CreateCubes | src/index.js:154-216 | the cubes added to the group are, one for one and in order, the kept shell cells, each with `userData.coordinate` set to its label |
| Shell.KeptBeforeBounded | src/index.js:157-163 | every cell kept before a loop state is a shell cell the loops have already passed |
| Shell.KeptBeforeIncreasing | src/index.js:157-163 | kept cells come in strictly increasing x-major, y, z order |
| Shell.KeptBeforeComplete | src/index.js:157-163 | every shell cell the loops have passed has been kept |
| Shell.RowLength | src/index.js:159-162 | a z-row adds 4 kept cells, or 2 when x and y are both interior |
| Shell.SlabLength | src/index.js:158-162 | a slab of fixed x keeps 16 cells, or 12 for x = 1 and x = 2 |
| Shell.ShellCount | src/index.js:157-163 | the loops keep 56 cells |
| Shell.CubesOnShell | src/index.js:157-179 | there are 56 cubes; each is a shell cell whose non-null label is `getCubeCoordinate` of it |
| Shell.CubesOrdered | src/index.js:157-159 | cubes are added in x-major, then y, then z order, so no cell is added twice |
| Shell.CubesComplete | src/index.js:157-163 | every shell cell has a cube |
| Shell.CubesDistinctLabels | src/index.js:163-179 | no two cubes carry the same label |
| Interaction.MouseMove | src/index.js:246-270 | the handler keeps the number of cubes, and `hoveredCube` still names a cube |
| Interaction.MouseClick | src/index.js:272-303 | the handler keeps the number of cubes, and `hoveredCube` still names a cube |
| Interaction.OwnedUpdate | src/index.js:283-289 | changing one cube's look changes a player's count only by that cube's contribution |
| Interaction.OwnedIdle | src/index.js:166-170 | freshly built cubes belong to nobody |
| Interaction.InitConsistent | src/index.js:15-16 | the scene as `init` leaves it satisfies the interaction invariant |
| Interaction.ResetHoveredOwned | src/index.js:232-244 | `resetHoverEffect` on the hovered cube changes no player's count |
| Interaction.MouseMoveConsistent | src/index.js:246-270 | a mouse move preserves the invariant: `hoveredCube` unset or unselected, selected cubes in a player colour with label shown, other unselected cubes idle, the hovered one idle or highlighted, counts balanced against the turn |
| Interaction.MouseClickConsistent | src/index.js:272-303 | a click preserves the same invariant |
| Interaction.ClickUnselected | src/index.js:281-300 | a click on an unselected cube gives it the colour of the player to move, selects it, shows its label, keeps its scale, flips the turn, clears `hoveredCube` only if it was this cube, and changes no other cube |
| Interaction.ClickIgnored | src/index.js:281-283 | a click on nothing or on a selected cube changes nothing |
| Interaction.ClickTwice | src/index.js:283 | clicking a cube a second time does nothing more |
| Interaction.ClicksAlternate | src/index.js:284-289 | two successful clicks in a row give the two cubes the two different player colours and hand the turn back |
| Interaction.MoveSame | src/index.js:257 | moving onto the hovered cube changes nothing |
| Interaction.MoveOntoUnselected | src/index.js:257-264 | moving onto another unselected cube makes it the hovered cube and the only highlighted one; other unselected cubes are idle and selected cubes keep their looks |
| Interaction.MoveOntoNothing | src/index.js:266-269 | moving off the group unsets `hoveredCube` and leaves every unselected cube idle |
| Interaction.HoverThenLeave | src/index.js:255-269 | with nothing hovered, hovering an unselected cube and then leaving restores the scene exactly |
| Interaction.StaleHover | src/index.js:257-264 | moving from the hovered cube onto a selected one resets the old cube but keeps it in `hoveredCube`, so moving back onto it leaves it idle |
| Interaction.SelectedFrozen | src/index.js:258-263 | neither handler changes or unselects a selected cube |
| Interaction.Step | src/index.js:62-63 | an event is handled by the matching listener, which keeps the number of cubes |
| Interaction.Run | src/index.js:62-63 | handling a sequence of events keeps the number of cubes |
| Interaction.RunConsistent | src/index.js:246-303 | any sequence of moves and clicks preserves the invariant |
| Interaction.Alternation | src/index.js:15-16 | from the initial scene, after any events, `hoveredCube` is unset or unselected, and player one owns as many cubes as player two, plus one when it is player two's turn |
| Interaction.RunSelectedFrozen | src/index.js:246-303 | a selected cube keeps its look and its selection through any events |
| Interaction.Scene.constructor | src/index.js:154-216 | the scene starts with `n` idle cubes, no hovered cube and player one to move, and satisfies the invariant |
| Interaction.Scene.ApplyHoverEffect | src/index.js:218-230 | the cube becomes colour 0x888888, scale 1.1 and label opacity 1; nothing else changes |
| Interaction.Scene.ResetHoverEffect | src/index.js:232-244 | the cube becomes colour 0xaaaaaa, scale 1 and label opacity 0; nothing else changes |
| Interaction.Scene.OnMouseMove | src/index.js:246-270 | the new state is `MouseMove` of the old one, and the invariant is kept |
| Interaction.Scene.OnMouseClick | src/index.js:272-303 | the new state is `MouseClick` of the old one, and the invariant is kept |

## Left out

- Rendering is not modelled: the scene, camera, renderer, orbit controls, resize handling, the animation loop, the error listener, the lights module, the ground plane and the grid helper. None of these touches labels, selection or hover state.
- `createTextTexture`, the label plane geometry, rotations and offsets, and the box geometry are not modelled. They only draw the label. Only the label string and its opacity are modelled.
- Floating-point cube positions and `cubeGroup.position.y` are not modelled. A cube is identified by its grid cell and its index in the group.
- The raycaster and the mouse-to-normalised-device-coordinate conversion are not modelled. The handlers take the first non-label object the ray hits as a parameter, which is a cube index or nothing. Picking depends on floating-point geometry and the camera.
- Hover is recomputed only when the mouse moves. When the camera moves under a still pointer, through damping after a drag or arrow-key panning, the cube under the pointer changes without any handler running. The highlight catches up only at the next mouse move. The model handles one event per hit and has no notion of the camera.
- The `if (cube.material)` guards are modelled as always taken, because every cube is built with a material.
- All six label planes of one cube share a single material. So the model keeps one label opacity per cube.
- Scale is modelled as two values, 1 and 1.1, rather than as three floating-point components. The handlers only ever set those two uniform scales.
- Labels.CubeCoordinate: requires the cell to be inside the grid. `createCubes` is its only caller and passes only grid cells. Outside the grid the JavaScript function has three outcomes, none of them modelled: `null` when no face test matches, `undefined` when the row exists but the column does not (as in `(4, 0, 0)`), and a TypeError when the row itself is missing.
- The stale `hoveredCube` is reproduced as written, as lemma `StaleHover` shows. After moving from a hovered cube onto a selected one, the old cube is reset but stays in `hoveredCube`, so moving back onto it does not highlight it again. The model does not treat this as a defect to correct.
- In the second row of the front table, "3C" and "2C" are swapped compared with the naming scheme every other reachable entry follows (`src/index.js:92`). The model reproduces the table as written. `DecodeLabel` treats these two names as the exception, so the labels are still distinct.
- The unused materials `material_1`, `material_blue`, `material_red` and `material_hover` are not modelled. Their colours reappear as the model's constants.
