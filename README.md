# Folder layout, animation and click routing — a Dafny model

This project models the folder logic of a small three.js portfolio scene. The scene has a
desk with a "holder" that contains a stack of cloned folder meshes. Clicking an invisible
trigger sphere, or the holder itself, sends folders flying onto the table with tweened motion.
The model covers the three core modules of `src/features/folders/`:

- **Scatter layout** (`generateScatterTransform`, module `FolderAnimations`).
  - It computes a folder's resting transform on the table: a row width capped at 4.5, even
    spacing around the table centre X = -2.2, a height lift of 0.05 per row of six when there
    are more than six folders, and bounded random jitter.
  - The three `Math.random()` draws are parameters of type `Draw`, a real in [0, 1).
- **Folder animation** (`animateFolderToTable`, module `FolderAnimations`).
  - The gsap timeline is data: a sequence of `Tween`s. `ScheduleOf` places them on the
    timeline the way gsap does: after the end of the timeline by default and for `'+=0'`,
    at the start of the previous tween for `'<'`, and shifted by each tween's `delay`.
  - `Play` gives the transform once every tween has reached its end values.
  - `AnimateFolderToTable` sets `isAnimating` and returns the timeline.
  - `FinishTimeline` stands for the timeline having played out and its `onComplete` having
    run. It writes the end transform into the mesh and clears the flag.
  - The lemmas show three things. The timeline completes at `folderIndex·0.1 + 0.3 + 1.0`.
    The lift (y = 10) and the teleport to (x ∈ [-2, 2), 3, 5) are intermediate states only.
    The end state is exactly the scatter target of `folderIndex`, whatever the start.
- **Click routing** (`createFolderInteraction`, module `FolderInteractions`).
  - Pixel coordinates are normalised to device coordinates, with Y flipped.
  - The distance-ordered hit list is classified by `Classify`, a pure function that returns a
    `ClickAction`:
    - `NoCallback`: no call is made.
    - `TriggerAll`: the callback is called with no argument.
    - `TriggerFolder(k)`: the callback is called with the folder at position `k` of the list.
  - `FolderInteraction.HandleFolderClick` follows the source's searches. It finds a trigger
    hit, walks each hit's parent chain looking for the holder, then finds the first idle
    folder. It is proved to return exactly `Classify`'s answer and to change nothing.
- **Folder spawning** (`createFolderClones`, module `FolderSpawner`).
  - With no holder it returns an empty list and leaves the scene alone.
  - Otherwise a loop clones the template `numFolders` times. Each clone is set to its start
    transform in the holder stack and added to the scene. It is recorded as
    `{ index: i, isAnimating: false }`.

The shared module `SceneGraph` holds the value types (`Vec3`, `Transform`, `Node`, `Option`,
`Draw`, the constant `Pi`) and the two classes whose fields the source updates in place:
`Mesh` (position and rotation) and `FolderData` (the per-folder record with `isAnimating`).

A hit is modelled as the node hit plus its chain of ancestors, nearest parent first. So the
source's `while (obj) { obj = obj.parent }` walk runs over a finite sequence. Node identity
(`===`) is the node's `id`. Two facts come from the world loader and are taken as
assumptions of the hit model:

- the trigger sphere carries `userData.type = 'folderTrigger'` (src/features/world/worldLoader.js:39);
- the holder is the node named `'fileHolder'` (src/features/world/worldLoader.js:16).

Three behaviours of the code worth stating:

- A trigger hit ANYWHERE in the hit list wins, even when a holder hit is nearer. This is
  proved in `TriggerBeatsNearerHolder`. It does not have to come before the holder hits.
- The layout of an animated folder uses the `folderIndex` argument, the stagger index. It
  does not use the record's own `index` field.
- The jitter intervals are half-open, [-0.05, 0.05) and [-0.15, 0.15), because
  `Math.random()` never returns 1.

## Model

| member | source | states |
|---|---|---|
| `FolderAnimations.TotalWidth` | src/features/folders/folderAnimations.js:9 | the row width is the smaller of 0.8·count and 4.5, so it never exceeds the 4.5-wide table |
| `FolderAnimations.Spacing` | src/features/folders/folderAnimations.js:10 | with more than one folder the spacing is positive and (count−1) spacings cover the row width exactly; with one folder or none it is 0 |
| `FolderAnimations.ScatterTransform` | src/features/folders/folderAnimations.js:3-37 | for all draws in [0,1): x lies in [baseX−0.05, baseX+0.05) and z in [−1.55, −1.45); y is tableHeight for at most 6 folders and tableHeight + floor(index/6)·0.05 above 6; rotation x and z are 0 and rotation y lies in [π/2−0.15, π/2+0.15) |
| `FolderAnimations.FloorOfSixth` | src/features/folders/folderAnimations.js:21 | `Math.floor(index / 6)` equals the integer quotient of index by 6, negative indices included |
| `FolderAnimations.BaseXWithinRow` | src/features/folders/folderAnimations.js:9-12 | for 1 ≤ count and 0 ≤ index < count, the pre-jitter centre lies between −2.2 − width/2 and −2.2 + width/2, and width ≤ 4.5 |
| `FolderAnimations.BaseXStrictlyIncreasing` | src/features/folders/folderAnimations.js:10-12 | with at least two folders the pre-jitter centre increases strictly with the index |
| `FolderAnimations.BaseXEdges` | src/features/folders/folderAnimations.js:9-12 | with at least two folders index 0 sits on the left edge and index count−1 on the right edge of the row |
| `FolderAnimations.MiddleOfFiveIsCentred` | src/features/folders/folderAnimations.js:9-12 | five folders have spacing 1.0 and the middle one (index 2) is centred at −2.2 |
| `FolderAnimations.SingleFolderAtLeftEdge` | src/features/folders/folderAnimations.js:10-12 | one folder has spacing 0 and its centre is −2.6, the left edge of its row rather than the table centre |
| `FolderAnimations.ScatterXWithinTable` | src/features/folders/folderAnimations.js:9-15 | for every valid index and every draw, the jittered x stays within the row widened by 0.05 on each side |
| `FolderAnimations.ScatterXCoversJitterWindow` | src/features/folders/folderAnimations.js:12-15 | conversely every x in [baseX−0.05, baseX+0.05) is produced by some draw |
| `FolderAnimations.FolderTimeline` | src/features/folders/folderAnimations.js:50-82 | the timeline consists of exactly four tweens: lift, teleport set, slide and rotation |
| `FolderAnimations.FolderTimelineSchedule` | src/features/folders/folderAnimations.js:50-82 | the lift starts after the stagger delay folderIndex·0.1; teleport, slide and rotation all start when the lift ends; the timeline completes at folderIndex·0.1 + 0.3 + 1.0 |
| `FolderAnimations.FolderTimelineStates` | src/features/folders/folderAnimations.js:52-82 | after the lift y = 10 with x and z untouched; after the teleport the position is (x, 3, 5) with x in [−2, 2); the finished timeline leaves the mesh exactly on the scatter target of folderIndex at table height −0.7, from any start transform |
| `FolderAnimations.AnimateFolderToTable` | src/features/folders/folderAnimations.js:39-83 | on entry the flag is set; the mesh is not touched yet; the returned timeline is exactly the four-tween `FolderTimeline` (lift, teleport, slide, rotation), so the schedule and intermediate states proved about it apply; it completes at folderIndex·0.1 + 1.3 and ends on the scatter target of folderIndex |
| `FolderAnimations.FinishTimeline` | src/features/folders/folderAnimations.js:43-48 | on completion the mesh holds the timeline's end transform and the flag is cleared; this is the only member that clears it |
| `FolderAnimations.AnimateToCompletion` | src/features/folders/folderAnimations.js:39-83 | a whole animation ends idle at time folderIndex·0.1 + 0.3 + 1.0 with the mesh on its scatter target |
| `FolderInteractions.NdcInRange` | src/features/folders/folderInteractions.js:71-72 | pixels inside the window map into [−1, 1] on both axes |
| `FolderInteractions.NdcCorners` | src/features/folders/folderInteractions.js:71-72 | (0, 0) maps to (−1, 1) and (W, H) maps to (1, −1) |
| `FolderInteractions.NdcMonotone` | src/features/folders/folderInteractions.js:71-72 | device X increases with the pixel column and device Y decreases with the pixel row (Y is flipped) |
| `FolderInteractions.NdcRoundTrip` | src/features/folders/folderInteractions.js:71-72 | the normalisation is invertible: the pixel is recovered from the device coordinates |
| `FolderInteractions.FirstIdle` | src/features/folders/folderInteractions.js:57 | returns a position exactly when some folder is idle; that folder is idle and every folder before it is animating |
| `FolderInteractions.Classify` | src/features/folders/folderInteractions.js:13-67 | no holder or no hits: no call; the callback with no argument exactly when some hit anywhere is tagged folderTrigger; the callback with folder k exactly when there is no trigger hit, some hit's chain reaches the holder and some folder is idle, k then being the first idle folder; otherwise no call |
| `FolderInteractions.TriggerBeatsNearerHolder` | src/features/folders/folderInteractions.js:36-52 | a trigger hit behind a nearer holder hit still yields the no-argument callback |
| `FolderInteractions.HolderDescendantSelectsFirstIdle` | src/features/folders/folderInteractions.js:43-64 | a hit on any descendant of the holder selects the first idle folder |
| `FolderInteractions.FolderInteraction.WalksToHolder` | src/features/folders/folderInteractions.js:43-52 | the parent walk finds the holder exactly when some node of the hit's chain is the holder or is named 'fileHolder' |
| `FolderInteractions.FolderInteraction.HandleFolderClick` | src/features/folders/folderInteractions.js:7-68 | the click handler returns exactly the action `Classify` prescribes (one callback at most) and modifies nothing, so no folder flag changes |
| `FolderInteractions.FolderInteraction.OnMouseClick` | src/features/folders/folderInteractions.js:70-74 | the shared pointer holds the normalised coordinates of the click and the action is the classification of the hits |
| `FolderInteractions.FolderInteraction.constructor` | src/features/folders/folderInteractions.js:5 | the pointer starts at (0, 0) |
| `FolderSpawner.SpacingZ` | src/features/folders/folderSpawner.js:11-13 | with more than one folder the depth gap is positive and (n−1) gaps span 0.12 exactly; otherwise it is 0 |
| `FolderSpawner.StartsAboveSamePoint` | src/features/folders/folderSpawner.js:3-7 | every clone starts at x = −2.25 and y = 4.7, because the X and Y spacings are 0 |
| `FolderSpawner.StackDepthIsFixed` | src/features/folders/folderSpawner.js:11-13 | for n > 1 the first clone starts at z = −2.1 and the last at z = −1.98, whatever n is |
| `FolderSpawner.StartZStrictlyIncreasing` | src/features/folders/folderSpawner.js:25 | for n > 1 the start depth increases strictly with the clone index |
| `FolderSpawner.StartZWithinStack` | src/features/folders/folderSpawner.js:25 | for n > 1 clone i starts at z = −2.1 + i·0.12/(n−1), within [−2.1, −1.98] |
| `FolderSpawner.SingleFolderAtStackFront` | src/features/folders/folderSpawner.js:25 | for n = 1 the depth gap is 0 and the clone starts at (−2.25, 4.7, −2.1) |
| `FolderSpawner.Scene.Add` | src/features/folders/folderSpawner.js:49 | adding a clone appends it to the scene's children |
| `FolderSpawner.CreateFolderClones` | src/features/folders/folderSpawner.js:15-63 | with no holder: an empty list and an unchanged scene. Otherwise exactly max(n, 0) fresh records. Record i has index i and is idle. Its own fresh mesh starts at the stack position of i with rotation (π/2, 0, 0). The scene gains exactly these meshes, in index order |
| `SceneGraph.Mesh.Clone` | src/features/folders/folderSpawner.js:29 | a clone is a new mesh with the template's transform |
| `SceneGraph.FolderData.constructor` | src/features/folders/folderSpawner.js:51-55 | a new record holds its mesh and index and is not animating |

## Left out

- Ray casting (`raycaster.setFromCamera`, `intersectObjects`) is three.js geometry. The
  distance-ordered hit list is an input of the click handler. `distance` is carried along but
  only the source's log lines use it.
- gsap's easing curves, per-frame interpolation and wall-clock scheduling are not modelled.
  A timeline is modelled by its start times, its completion time and the transform once every
  tween has reached its end values. `FinishTimeline` stands for the whole run to completion.
- Calling `animateFolderToTable` again on a folder that is still animating is not modelled.
  The overlapping tweens that this produces are unspecified.
- Negative stagger indices are not modelled: `folderIndex` is a `nat`. A negative delay moves
  a tween before the timeline's start, which depends on gsap internals.
- Floating point is out of scope. Arithmetic is exact on `real`, and π is `Math.PI` as
  JavaScript prints it (16 significant digits), not the double's exact binary value. IEEE
  rounding, NaN and Infinity are not modelled.
- Default arguments are not modelled; every parameter is explicit in the model. The source's
  defaults are `tableHeight = -0.7, totalFolders = 5` for `generateScatterTransform`,
  `folderIndex = 0, totalFolders = 1` for `animateFolderToTable` and `numFolders = 10` for
  `createFolderClones`. Left to its default count of 1, `animateFolderToTable` would put every
  folder at x = -2.6 ± 0.05 whatever its index.
- The device-coordinate functions require a window of positive width and height. A zero-sized
  window divides by zero, which JavaScript turns into Infinity or NaN.
- `Math.random()` is not modelled. Each draw is a parameter in [0, 1). `animateFolderToTable`
  draws in source order: the teleport x first, then the layout's x, z and rotation.
- What the caller does with the click action is not modelled: the entry file does not wire
  the click handler to the animator. The callback is a returned `ClickAction`.
- Side effects with no logic are not modelled: console logging, `toFixed` formatting,
  `traverse` shadow and colour-space flags, the holder's world position (which is only
  logged), and the registration and removal of the click listener.
- Scene bootstrap, asset loading and camera setup are not part of this model: renderer, lights,
  orbit controls, the render loop, resize handling and GLTF loading (`main.js`, `src/main.js`,
  `src/core/`, `src/features/camera/`, `src/features/world/worldLoader.js`).
