# Virtual tattoo try-on: pointer, zoom and overlay-list model

A Dafny model of the two pieces of the try-on tool that are its own logic rather than glue around the
browser and the 2D scene-graph library:

- **The live try-on view** (`src/LiveTryOn.jsx`): one tattoo drawn over a camera frame or an uploaded
  photo. Mouse-down inside the drawn tattoo starts a drag and records the grab offset. Mouse-move while
  dragging puts the tattoo at the cursor minus that offset. Mouse-up ends the drag. The wheel steps the
  scale by 0.05 and clamps it to [0.2, 2]. Each frame draws the camera frame (camera mode, video ready),
  the photo (photo mode, photo uploaded) or nothing, then the tattoo at its position and scaled size.
  Module `LiveTryOn`: pure transitions over `PointerState` (`MouseDown`, `MouseMove`, `MouseUp`, `Wheel`,
  `LoadTattoo`), an event-sequence runner `Run`, lemmas about them, and the class `TryOnView` whose fields
  are the component's state and whose handler methods are proved to perform those transitions.
- **The overlay editor** (`src/TattooOverlay.jsx`): an ordered list of tattoo sources, an optional
  selected index and one shared controls record (scale, rotation, opacity). Thumbnail clicks append,
  clicking an overlay selects it, sliders change one key, delete removes the selected entry and clears the
  selection. Only the selected overlay is rendered with the shared controls and a transform handle; the
  others are rendered with scale 1, rotation 0, opacity 1. The resize guard refuses boxes smaller than 20
  in either dimension. Module `TattooOverlay`: the pure parts as functions, the class `Editor` for the list
  and selection, and the class `DraggableTattoo` for one overlay's dropped position.

Coordinates, scales and control values are `real`s. Each handler is modelled as seeing the state left by
the previous event (React's batching of state updates within one event is not modelled). Mouse
coordinates enter as client coordinates and the canvas's bounding-rectangle origin
(`getBoundingClientRect`), which is a parameter.

## Model

| member | source | states |
|---|---|---|
| `LiveTryOn.Clamp` | src/LiveTryOn.jsx:131 | the result is always in [0.2, 2], equals the input when it is in range, and is the nearer bound otherwise |
| `LiveTryOn.ToCanvas` | src/LiveTryOn.jsx:96-98 | the canvas point plus the canvas origin is the client point |
| `LiveTryOn.ChooseBackground` | src/LiveTryOn.jsx:58-62 | the camera frame is drawn iff in camera mode with the video ready; the photo iff in photo mode with a photo uploaded; otherwise nothing |
| `LiveTryOn.OverlayRect` | src/LiveTryOn.jsx:64-68 | a rectangle exists iff a tattoo is loaded; it is (pos.x, pos.y, width·scale, height·scale) |
| `LiveTryOn.MouseDown` | src/LiveTryOn.jsx:94-113 | never moves or zooms; a press on the drawn rectangle (edges included) sets dragging and an offset with pos + offset = cursor; any other press, and any press with no tattoo, leaves the state unchanged (dragging not cleared) |
| `LiveTryOn.MouseMove` | src/LiveTryOn.jsx:115-121 | not dragging: no change; dragging: new pos + offset = cursor; nothing but the position changes |
| `LiveTryOn.MouseUp` | src/LiveTryOn.jsx:123-125 | dragging becomes false; position, scale, offset and tattoo are kept |
| `LiveTryOn.Wheel` | src/LiveTryOn.jsx:128-132 | the new scale is in [0.2, 2]; it is the clamp of scale + 0.05 when deltaY < 0 and of scale − 0.05 otherwise (deltaY = 0 included); position, drag flag and offset are kept |
| `LiveTryOn.LoadTattoo` | src/LiveTryOn.jsx:87-91 | the tattoo becomes the loaded image; position, scale and drag state are kept |
| `LiveTryOn.WheelStep` | src/LiveTryOn.jsx:130-131 | with the scale in range, a step up gives min(scale + 0.05, 2) and a step down max(scale − 0.05, 0.2) |
| `LiveTryOn.CornersAreHits` | src/LiveTryOn.jsx:104-109 | the hit test is inclusive: all four corners of the drawn rectangle are on the tattoo |
| `LiveTryOn.DragMovesByDelta` | src/LiveTryOn.jsx:110-120 | pressing on the tattoo at p and moving to p + d moves the tattoo by exactly d |
| `LiveTryOn.DragFollowsLastMove` | src/LiveTryOn.jsx:115-121 | during a drag, any run of moves leaves the tattoo at the last cursor minus the offset, still dragging with the same offset |
| `LiveTryOn.ReleasedStaysPut` | src/LiveTryOn.jsx:115-125 | when not dragging, no sequence of moves, releases, wheel steps or loads (no press) moves the tattoo or starts a drag |
| `LiveTryOn.ScaleStaysInRange` | src/LiveTryOn.jsx:128-132 | starting in [0.2, 2], the scale stays in [0.2, 2] after any sequence of events |
| `LiveTryOn.TryOnView.constructor` | src/LiveTryOn.jsx:20-27 | camera mode, no photo, no tattoo, position (250, 150), scale 0.6, not dragging, offset (0, 0); the scale invariant holds |
| `LiveTryOn.TryOnView.SetMode` | src/LiveTryOn.jsx:141 | the mode becomes the chosen one and nothing else changes |
| `LiveTryOn.TryOnView.HandleUpload` | src/LiveTryOn.jsx:77-84 | no file: no change; a file: a photo is uploaded |
| `LiveTryOn.TryOnView.HandleTattooSelect` | src/LiveTryOn.jsx:87-91 | the pointer state becomes `LoadTattoo` of the old one |
| `LiveTryOn.TryOnView.HandleMouseDown` | src/LiveTryOn.jsx:94-113 | the pointer state becomes `MouseDown` of the old one at the canvas point; only dragging and offset may change |
| `LiveTryOn.TryOnView.HandleMouseMove` | src/LiveTryOn.jsx:115-121 | the pointer state becomes `MouseMove` of the old one; only the position may change |
| `LiveTryOn.TryOnView.HandleMouseUp` | src/LiveTryOn.jsx:123-125 | the pointer state becomes `MouseUp` of the old one |
| `LiveTryOn.TryOnView.HandleWheel` | src/LiveTryOn.jsx:128-132 | the pointer state becomes `Wheel` of the old one and the scale invariant holds afterwards |
| `LiveTryOn.TryOnView.DrawFrame` | src/LiveTryOn.jsx:54-68 | the frame drawn is the chosen background and the overlay rectangle of the current state |
| `TattooOverlay.WithControl` | src/TattooOverlay.jsx:123-125 | the named key holds the new value; every other key keeps its old value |
| `TattooOverlay.WithControlOverwrites` | src/TattooOverlay.jsx:123-125 | setting a key twice is the same as setting it to the second value |
| `TattooOverlay.WithControlCommutes` | src/TattooOverlay.jsx:123-125 | changes to two different keys commute |
| `TattooOverlay.EffectiveControls` | src/TattooOverlay.jsx:213-217 | the selected overlay gets the shared controls; every other overlay gets scale 1, rotation 0, opacity 1 and no scaleY |
| `TattooOverlay.EffectiveScaleY` | src/TattooOverlay.jsx:35 | an absent or zero scaleY falls back to scale; any other scaleY is used |
| `TattooOverlay.AttrsOf` | src/TattooOverlay.jsx:34-37 | the image node's scaleX, rotation and opacity are the controls' own; its scaleY is the effective scaleY, so with no scaleY the node is scaled uniformly |
| `TattooOverlay.Render` | src/TattooOverlay.jsx:207-219 | one entry per tattoo in order, with its source, `isSelected` iff its index is the selection, and its effective controls |
| `TattooOverlay.CountTransformers` | src/TattooOverlay.jsx:45-64 | at most one handle per overlay; zero handles iff no overlay is selected |
| `TattooOverlay.AtMostOneTransformer` | src/TattooOverlay.jsx:207-219 | at most one overlay carries a transform handle; exactly one iff the selection is an index of the list |
| `TattooOverlay.AppendKeepsEarlierOverlays` | src/TattooOverlay.jsx:119-121 | after an append a valid selection stays valid, earlier overlays render exactly as before and the new one is unselected and neutral |
| `TattooOverlay.SelectionMovesHandleAndControls` | src/TattooOverlay.jsx:211-217 | selecting b after a moves the handle and the shared controls from a to b; a is then rendered at scale 1, rotation 0, opacity 1 |
| `TattooOverlay.BoundBox` | src/TattooOverlay.jsx:60-63 | a proposal at least 20 × 20 (exactly 20 included) is taken; a smaller one gives the old box; an old box at least 20 × 20 gives a result at least 20 × 20 |
| `TattooOverlay.ResizesKeepMinimumSize` | src/TattooOverlay.jsx:60-63 | judging any sequence of proposals one after another from a box at least 20 × 20 ends at least 20 × 20, at the start box or one of the proposals |
| `TattooOverlay.Splice` | src/TattooOverlay.jsx:129-130 | an index in range removes exactly that entry and keeps the others in order; an index past the end removes nothing |
| `TattooOverlay.SpliceRemovesOne` | src/TattooOverlay.jsx:129-130 | the removed entry together with the remaining ones is the original multiset |
| `TattooOverlay.Editor.Overlays` | src/TattooOverlay.jsx:207-219 | the editor's layer renders one overlay per tattoo and at most one transform handle; while the selection invariant holds, exactly one handle iff something is selected |
| `TattooOverlay.Editor.constructor` | src/TattooOverlay.jsx:84-91 | no body image, no tattoos, no selection, controls (1, 0, 0.8); the selection invariant holds |
| `TattooOverlay.Editor.HandleBodyUpload` | src/TattooOverlay.jsx:111-117 | no file: no change; a file: its data URL becomes the body image |
| `TattooOverlay.Editor.HandleTattooClick` | src/TattooOverlay.jsx:119-121 | the source is appended at the end; the selection is unchanged and stays valid |
| `TattooOverlay.Editor.Select` | src/TattooOverlay.jsx:212 | the selection becomes the clicked overlay's index, which is valid |
| `TattooOverlay.Editor.HandleControlChange` | src/TattooOverlay.jsx:123-125 | the controls become `WithControl` of the old ones |
| `TattooOverlay.Editor.HandleDeleteTattoo` | src/TattooOverlay.jsx:127-134 | with no selection nothing changes; with one, the list loses the selected entry (`Splice`) and the selection is cleared; the invariant holds |
| `TattooOverlay.DraggableTattoo.constructor` | src/TattooOverlay.jsx:18 | a new overlay component starts at (200, 200) |
| `TattooOverlay.DraggableTattoo.HandleDragEnd` | src/TattooOverlay.jsx:41-43 | the stored position becomes where the image node was dropped |

## Left out

- Camera acquisition and release (`getUserMedia`, stopping the tracks): browser I/O and asynchronous; the camera's readiness enters `DrawFrame` as the `videoReady` parameter.
- File and image decoding (`FileReader`, `new Image()`, `URL.createObjectURL`, `useImage`): asynchronous foreign calls. A decoded tattoo is only its width and height; a decoded photo is only the fact that one exists; the body image is its data URL. Decode failures are not modelled.
- The `requestAnimationFrame` redraw loop, the canvas clear and the actual drawing: only what one frame draws is modelled. The early return when the canvas has no 2D context is not modelled; the canvas is always rendered.
- The scene-graph library's transform handles: rotation, anchor-based resize, its hit-testing and redraws. Only the repository's own `boundBoxFunc` callback is modelled. `ResizesKeepMinimumSize` assumes that the library judges each proposal against the box kept so far.
- Export to a PNG download (`toDataURL`, the link click, the fixed file name): DOM and I/O.
- Window resize and stage sizing (0.6 and 0.7 of the window): floating-point UI layout.
- Slider ranges (scale 0.3–2, rotation 0–360, opacity 0.2–1): they are enforced by the HTML range inputs, not by the control-change handler, so the model does not clamp controls. No slider sets `scaleY`; the `ScaleYKey` key exists so that the `scaleY || scale` fallback can be stated.
- Drag bounding: no code keeps the dragged tattoo inside the canvas, so nothing of the kind is stated.
- React reconciliation: the list uses index keys, so per-component positions shift after a delete. `DraggableTattoo` is modelled as one component on its own, not tied to a list index.
- Styling, JSX layout and `src/App.js`, which only mounts the editor. The canvas's 2px CSS border (src/LiveTryOn.jsx:185) is among them: the handlers measure from the border-box origin (src/LiveTryOn.jsx:96), so their coordinates sit 2px off the drawing surface's; `OnOverlay` and the lemmas are stated in the handlers' coordinates.
- `e.preventDefault()` in the wheel handler (src/LiveTryOn.jsx:129): it stops the page from scrolling, a browser effect outside the modelled state.
- The redraw effect (src/LiveTryOn.jsx:50-74) has no cleanup, so every change of its dependencies starts another `requestAnimationFrame` loop while the earlier loops keep running with the state they captured. `TryOnView.DrawFrame` describes only what the newest loop draws from the current state; the older loops' draws are not modelled.
- IEEE floating-point rounding, NaN and infinities, and JavaScript's truthiness of values other than an absent or zero `scaleY`: numbers are `real`s.
- The `videoRef` being null in camera mode (which would throw while drawing): the video element is always rendered.
