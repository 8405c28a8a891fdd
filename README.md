# PCBVisualizer3D scene and selection controller in Dafny

This project models the scene and selection controller of PCBVisualizer3D's
`MainWindow`. The controller:

- builds a 3D scene from a board: three lights, three coordinate axes, a
  ForestGreen board slab, and one coloured box per component;
- keeps a registry that maps each component box to an info string, plus a
  record of each box's original material;
- picks and highlights one component at a time, showing its fields in the
  info panel;
- re-lays the components out at a typed offset;
- frames the camera on the board;
- loads a parsed board document.

The board description (`PCBModel`, `Dimensions`, `Component`) is modelled as
plain datatypes.

## How the model is built

- **Geometry identity.** Every geometry model the window creates is kept in
  an arena, `MainWindow.geometry : seq<Geometry>`. A `Geometry` is a shape plus
  its current material. The index in the arena is the model's identity.
  - The viewport's children are `LightVisual(light)` or
    `ModelVisual(index)`.
  - `_modelInfo` and `_originalMaterials` are `map<nat, _>` keyed by that
    index.
  - `_selectedComponent` and `_pcbGeometry` are `Option<nat>`.
  - A geometry model that leaves the viewport stays in the arena, just as the
    C# object stays reachable from the dictionaries that still hold it.
- **Materials** are `Solid(colour, specular power)`, `Overlay(original)` or
  `Fallback`.
  - `Overlay(original)` is the material group holding the original plus the
    animated emissive layer.
  - `Fallback` is the plain LightGray material that a highlight stop applies
    when no original was recorded.
- **Renderer commands** are recorded in a ghost `trace` of `Event`s. The
  commands are starting and stopping the highlight animation, and
  `ZoomExtents`. This is how the order "stop the old highlight, then start
  the new one" is stated.
- **Hit testing** is an input value `Pick`. It is a miss, a geometry model
  of the arena that is shown in the viewport, or a mesh hit whose model is
  not a geometry model.
- **Reading and deserialising the document** is an input value
  `ParseOutcome`: a board, a null result, or an exception message.
  `LoadPcb` returns the text the message box would show.
- **Number formatting and offset parsing:**
  - `float.ToString` is the class constant `format`. It writes the full
    build's coordinates and every dimensions text.
  - `double.ToString` is the class constant `formatDouble`. It writes the
    offset re-layout's shifted coordinates: a `float` coordinate plus a
    `double` offset is a `double` in C#.
  - `double.TryParse` is the class constant `tryParse`.
  - `Int32.ToString` (the rotation) is modelled as decimal digits after a
    '-' for negative values.
  - The two info-string interpolations are the constants `drawInfo` and
    `offsetInfo`. The ghost predicate `Templates()` ties them to
    `InfoText.DrawInfo` and `InfoText.OffsetInfo`, and the constructor
    establishes it.
- **Invariant.** `Valid()` holds before and after every handler. It states:
  - identities are in range;
  - the slab is never registered and has no recorded original;
  - every recorded original is a plain material;
  - the selection is registered;
  - the highlight invariant: the selected geometry carries the overlay of
    its original exactly when an original is recorded for it, and no other
    geometry carries an overlay.

### Asymmetries of the code, modelled as written

- **Faces other than "Top"/"Bottom".** The full build draws no box for them
  (`Scene.MountedMembers`).
- **The registries are never cleared.** `_modelInfo` and
  `_originalMaterials` only grow, and a rebuild does not reset the selection.
  The invariant still holds after a rebuild, because the old identities
  stay valid in the arena.
- **The offset re-layout:**
  - it applies no face rule;
  - it draws every component, whatever its face;
  - it records no original material.

  As a result, a zero offset moves every mounted "Bottom" box with a non-zero
  z (`SceneFacts.ZeroOffsetKeepsBottomAbove`). A re-laid-out box also never
  lights up, and a stop on it turns it LightGray
  (`SceneFacts.RelaidBoxLosesColour`).
- **Unregistered hits.** A hit on an unregistered geometry model (the slab,
  an axis) leaves the selection and the panel unchanged.
- **Null parse result.** `LoadPCB` assigns the parse result before checking
  it for null. A null document therefore forgets the current board, while
  the old scene stays on screen.

## Model

| member | source | states |
|---|---|---|
| Scene.ComponentColorFallsBackExactlyOffTable | PCBVisualizer3D/MainWindow.xaml.cs:35-50 | a box is LightGray exactly when its type is not one of the 13 table keys; otherwise it gets the table's colour, and the lookup never fails |
| Scene.BothPathsShareColor | PCBVisualizer3D/MainWindow.xaml.cs:565-572 | the offset re-layout gives a component the same material as the full build: its type's colour with specular power 200 |
| Scene.FaceRule | PCBVisualizer3D/MainWindow.xaml.cs:350-356 | a box of the full build sits at the component's x and y and its own size, at +z on "Top" and at -z on "Bottom" |
| Scene.SlabGeometry | PCBVisualizer3D/MainWindow.xaml.cs:310-327 | the slab spans exactly [0, width] × [0, height] × [0, thickness], in ForestGreen with specular power 300 |
| Scene.MountedMembers | PCBVisualizer3D/MainWindow.xaml.cs:331-341 | a component gets a box in the full build exactly when it is in the list and its face is exactly "Top" or "Bottom" |
| Scene.MountedExtremes | PCBVisualizer3D/PCBModel.cs:82-85 | the face is a free string: with all faces "Top"/"Bottom" every component is drawn in list order, and with none of them nothing is drawn |
| Scene.WithoutAllRegistered | PCBVisualizer3D/MainWindow.xaml.cs:543-551 | removing each registered child once, first occurrence first, leaves exactly the unregistered children in their order |
| Scene.RemoveNextRegistered | PCBVisualizer3D/MainWindow.xaml.cs:548-551 | each removal in the loop takes out exactly the next registered child |
| Scene.FramingPoseAimsAtBoard | PCBVisualizer3D/MainWindow.xaml.cs:202-213 | the camera sits above the board centre at 2·max(width, height), looks straight down by that distance to the board plane, has y up and a 45° field of view |
| Scene.FramingPoseExample | PCBVisualizer3D/MainWindow.xaml.cs:207-210 | a 100 × 60 board puts the camera at (50, 30, 200) looking by (0, 0, -200) |
| Text.Split | PCBVisualizer3D/MainWindow.xaml.cs:491 | `String.Split` always gives at least one part, and at least two when the separator occurs |
| Text.JoinSplit | PCBVisualizer3D/MainWindow.xaml.cs:491 | joining the parts of a split with the separator gives back the string |
| Text.SplitJoin | PCBVisualizer3D/MainWindow.xaml.cs:373-384 | splitting lines joined by '\n' gives back the lines when none holds a '\n' |
| Text.TrimStart | PCBVisualizer3D/MainWindow.xaml.cs:492 | drops exactly the leading white space, and the result starts with a non-space character |
| Text.TrimEnd | PCBVisualizer3D/MainWindow.xaml.cs:492 | drops exactly the trailing white space, and the result ends with a non-space character |
| Text.IntToTextRoundTrip | PCBVisualizer3D/MainWindow.xaml.cs:376 | the rotation's decimal text reads back as the rotation |
| InfoText.FirstWithPrefix | PCBVisualizer3D/MainWindow.xaml.cs:492 | `FirstOrDefault(l => l.StartsWith(p))`: the line found is the first line with the prefix; nothing is found exactly when no line has it |
| InfoText.FieldOfTagged | PCBVisualizer3D/MainWindow.xaml.cs:492 | `Split(':')[1].Trim()` of a `<name>: <value>` line gives the value trimmed when neither name nor value holds a ':' |
| InfoText.PositionRecovered | PCBVisualizer3D/MainWindow.xaml.cs:494 | the "X=" line is found (no tagged line starts with "X=") and shown whole, trimmed |
| InfoRoundTrip.LocationRecovered | PCBVisualizer3D/MainWindow.xaml.cs:492 | the Location field reads back from the info string, trimmed |
| InfoRoundTrip.TypeRecovered | PCBVisualizer3D/MainWindow.xaml.cs:493 | the Type field reads back, trimmed |
| InfoRoundTrip.FaceRecovered | PCBVisualizer3D/MainWindow.xaml.cs:495 | the Face field reads back, trimmed |
| InfoRoundTrip.KdtecRecovered | PCBVisualizer3D/MainWindow.xaml.cs:496 | the KDTEC P/N field reads back, trimmed |
| InfoRoundTrip.CustomerRecovered | PCBVisualizer3D/MainWindow.xaml.cs:497 | the Customer P/N field reads back, trimmed |
| InfoRoundTrip.MakerPNRecovered | PCBVisualizer3D/MainWindow.xaml.cs:498 | the Maker P/N field reads back, trimmed, although "MakerName" shares its first five letters |
| InfoRoundTrip.DescriptionRecovered | PCBVisualizer3D/MainWindow.xaml.cs:499 | the Description field reads back, trimmed |
| InfoRoundTrip.MakerNameRecovered | PCBVisualizer3D/MainWindow.xaml.cs:500 | the MakerName field reads back, trimmed |
| InfoRoundTrip.ProcessRecovered | PCBVisualizer3D/MainWindow.xaml.cs:501 | the Process field reads back, trimmed |
| InfoRoundTrip.DimensionsRecovered | PCBVisualizer3D/MainWindow.xaml.cs:502 | the Dimensions field reads back as the `<w>x<h>x<t>` text, trimmed |
| InfoRoundTrip.PanelRecoversInfo | PCBVisualizer3D/MainWindow.xaml.cs:491-502 | for text fields free of ':' and '\n', the panel's reading inverts the info string's writing: all eleven fields come back, trimmed |
| InfoRoundTrip.DrawPositionLineWellFormed | PCBVisualizer3D/MainWindow.xaml.cs:376 | the full build's position line starts with "X=", holds no line break and is its own trim |
| InfoRoundTrip.OffsetPositionLineWellFormed | PCBVisualizer3D/MainWindow.xaml.cs:580 | the same for the offset line, which carries the shifted x, y and z as doubles |
| InfoRoundTrip.DimensionsPlain | PCBVisualizer3D/PCBModel.cs:117-120 | the `<w>x<h>x<t>` text holds no ':' or '\n' when the formatted numbers hold none |
| InfoRoundTrip.PanelOfDrawInfo | PCBVisualizer3D/MainWindow.xaml.cs:373-384 | selecting a box of the full build shows the component's fields trimmed and its position line as written |
| InfoRoundTrip.PanelOfOffsetInfo | PCBVisualizer3D/MainWindow.xaml.cs:577-588 | selecting a re-laid-out box shows the component's fields trimmed and the shifted position line, written with `double.ToString`, as written |
| Viewer.RegisterFacts | PCBVisualizer3D/MainWindow.xaml.cs:369-373 | writing one entry per box at consecutive identities keeps every earlier entry, adds exactly the new identities, and stores each box's value at its own identity |
| Viewer.RestoredMaterial | PCBVisualizer3D/MainWindow.xaml.cs:473-480 | with plain recorded originals, what a stop puts back is never an overlay, and it is the LightGray fallback exactly when no original was recorded |
| Viewer.StopLeavesNoOverlay | PCBVisualizer3D/MainWindow.xaml.cs:460-483 | stopping the selected geometry's highlight leaves no overlay anywhere in the arena |
| Viewer.StartHighlightsOnlyTarget | PCBVisualizer3D/MainWindow.xaml.cs:430-442 | starting on a geometry when no other one is overlaid makes it the only highlighted geometry, or leaves it plain if it has no original |
| Viewer.AtMostOneHighlight | PCBVisualizer3D/MainWindow.xaml.cs:404-410 | under the highlight invariant, two overlaid geometries are the same one, and it is the selection |
| Viewer.SelectKeepsConsistent | PCBVisualizer3D/MainWindow.xaml.cs:404-410 | stopping a different previous selection and then starting the new one keeps the window's invariant, whatever was selected before |
| Viewer.DeselectKeepsConsistent | PCBVisualizer3D/MainWindow.xaml.cs:417-422 | stopping the selected geometry and forgetting it keeps the window's invariant |
| Viewer.RelayoutKeepsScenery | PCBVisualizer3D/MainWindow.xaml.cs:543-551 | removing the registered children of a full build leaves exactly its lights, axes and slab |
| Viewer.UnregisteredMembers | PCBVisualizer3D/MainWindow.xaml.cs:545 | every child that survives the removal was a child before and is not registered |
| Viewer.BuiltConsistent | PCBVisualizer3D/MainWindow.xaml.cs:304-342 | a full build on top of a consistent state is consistent again: the slab is unregistered, new boxes have plain originals, and the old highlight state carries over |
| Viewer.RelaidConsistent | PCBVisualizer3D/MainWindow.xaml.cs:540-593 | an offset re-layout on top of a consistent state is consistent again, with the selection kept |
| Viewer.MainWindow.constructor | PCBVisualizer3D/MainWindow.xaml.cs:25-31 | the window starts with an empty viewport, empty registries, no selection, no slab and no board |
| Viewer.MainWindow.AddLights | PCBVisualizer3D/MainWindow.xaml.cs:248-266 | appends the gray ambient light, then the white light along (-1,-1,-1), then the white light along (1,1,1) |
| Viewer.MainWindow.DrawCoordinateSystem | PCBVisualizer3D/MainWindow.xaml.cs:268-300 | appends the red x, green y and blue z axis cylinders from the origin to 100, each in its own visual |
| Viewer.MainWindow.DrawComponent | PCBVisualizer3D/MainWindow.xaml.cs:346-385 | creates the box by the face rule at the next identity, records its material as its original and its info string, and appends its visual |
| Viewer.MainWindow.DrawPcbWithComponents | PCBVisualizer3D/MainWindow.xaml.cs:304-342 | the children are exactly the lights, the axes, the slab and one box per "Top"/"Bottom" component in list order; the registries gain exactly those boxes; the invariant is kept |
| Viewer.MainWindow.DrawScenery | PCBVisualizer3D/MainWindow.xaml.cs:306-329 | clears the children, then appends the lights, the axes and the slab, and remembers the slab |
| Viewer.MainWindow.DrawBoardSlab | PCBVisualizer3D/MainWindow.xaml.cs:310-329 | creates the slab at the next identity, remembers it as `_pcbGeometry` and appends its visual |
| Viewer.MainWindow.DrawMountedComponents | PCBVisualizer3D/MainWindow.xaml.cs:331-341 | the loop draws exactly the "Top"/"Bottom" components, in order, at consecutive identities, each registered with its info string and original |
| Viewer.MainWindow.StartHighlightAnimation | PCBVisualizer3D/MainWindow.xaml.cs:430-454 | with a recorded original, the material becomes the overlay of that original and the animation starts; without one, nothing changes |
| Viewer.MainWindow.StopHighlightAnimation | PCBVisualizer3D/MainWindow.xaml.cs:460-483 | stops the animation if the material is an overlay, puts back the original or LightGray, and clears `_isAnimating` |
| Viewer.MainWindow.UpdateTextBlocks | PCBVisualizer3D/MainWindow.xaml.cs:489-503 | the panel shows the fields read from the info string |
| Viewer.MainWindow.ClearTextBlocks | PCBVisualizer3D/MainWindow.xaml.cs:508-521 | all eleven fields show "--" |
| Viewer.MainWindow.MoveHighlight | PCBVisualizer3D/MainWindow.xaml.cs:404-410 | stops a different previous selection strictly before starting the new one (no stop, and `_isAnimating` untouched, when the same geometry is hit again), the new one becomes the selection, and the invariant is kept |
| Viewer.MainWindow.Select | PCBVisualizer3D/MainWindow.xaml.cs:401-413 | a registered hit moves the selection and highlight to the hit geometry and shows its info string's fields |
| Viewer.MainWindow.Deselect | PCBVisualizer3D/MainWindow.xaml.cs:415-423 | a miss with a selection stops its highlight, clears `_isAnimating` and the panel, and forgets the selection |
| Viewer.MainWindow.MouseDown | PCBVisualizer3D/MainWindow.xaml.cs:394-424 | for a hit on a displayed model: a registered hit selects; a miss with a selection deselects; a hit on an unregistered or non-geometry model, or a miss with no selection, changes nothing, `_isAnimating` included; the invariant is kept |
| Viewer.MainWindow.ResetSelection | PCBVisualizer3D/MainWindow.xaml.cs:612-620 | stops and forgets any selection (clearing `_isAnimating`), and always clears the panel |
| Viewer.MainWindow.DrawComponentsWithOffset | PCBVisualizer3D/MainWindow.xaml.cs:540-593 | exactly the registered children are removed, then one box per component (every face) at the shifted position is added and registered with its shifted info string; originals and selection are untouched; the invariant is kept |
| Viewer.MainWindow.RemoveComponentVisuals | PCBVisualizer3D/MainWindow.xaml.cs:543-551 | the removal loop leaves exactly the children whose geometry is not registered |
| Viewer.MainWindow.AddOffsetComponents | PCBVisualizer3D/MainWindow.xaml.cs:553-592 | the adding loop appends one shifted box per component, in order, at consecutive identities, each registered with its shifted info string |
| Viewer.MainWindow.ApplyOffset | PCBVisualizer3D/MainWindow.xaml.cs:526-535 | without a board nothing changes; otherwise the re-layout runs at the parsed offsets, 0 for each text that does not parse |
| Viewer.MainWindow.CenterCameraOnPcb | PCBVisualizer3D/MainWindow.xaml.cs:195-216 | with a board and a perspective camera, seeds the camera with the framing pose and then requests a zoom to extents; otherwise nothing changes |
| Viewer.MainWindow.LoadPcb | PCBVisualizer3D/MainWindow.xaml.cs:225-246 | a board becomes current and is drawn, the camera is seeded with its framing pose and a zoom to extents is requested; a null document forgets the board and leaves the scene; an exception changes nothing; the message box text matches each case |
| Viewer.MainWindow.ShowBoard | PCBVisualizer3D/MainWindow.xaml.cs:232-236 | the loaded board is drawn, then the camera is seeded with its framing pose and a zoom to extents is requested |
| SceneFacts.RegisterAt | PCBVisualizer3D/MainWindow.xaml.cs:373 | the j-th box registered is stored under identity first + j |
| SceneFacts.RegistryOnlyGrows | PCBVisualizer3D/MainWindow.xaml.cs:577 | a rebuild keeps every earlier registry entry unchanged |
| SceneFacts.BuiltScenery | PCBVisualizer3D/MainWindow.xaml.cs:306-329 | after a full build the children begin with the three lights, the three axes and the slab, in that order, the slab is the remembered one, and there are 7 children plus one per drawn component |
| SceneFacts.BuiltBoxAt | PCBVisualizer3D/MainWindow.xaml.cs:346-384 | the j-th drawn component's visual is child 7 + j; its geometry obeys the face rule; it is registered with its info string and with the original it was made with |
| SceneFacts.HighlightRoundTrip | PCBVisualizer3D/MainWindow.xaml.cs:430-483 | on a geometry still wearing its recorded original, start shows the overlay of that original, and start followed by stop gives back the arena exactly |
| SceneFacts.BuiltBoxKeepsColour | PCBVisualizer3D/MainWindow.xaml.cs:369 | a box of the full build, highlighted and then stopped, is back in its type's colour |
| SceneFacts.BuiltBoxPanel | PCBVisualizer3D/MainWindow.xaml.cs:412 | selecting the j-th drawn box shows that component's fields trimmed and its position line |
| SceneFacts.RelaidBoxAt | PCBVisualizer3D/MainWindow.xaml.cs:553-590 | after a re-layout the kept children come first; the j-th component's box follows them at (x+dx, y+dy, z+dz) whatever its face, registered with its shifted info string |
| SceneFacts.RelaidBoxLosesColour | PCBVisualizer3D/MainWindow.xaml.cs:569-577 | a re-laid-out box has no recorded original, so a start leaves it as it is and a stop gives it the LightGray fallback material, not the material it was made with |
| SceneFacts.ZeroOffsetKeepsBottomAbove | PCBVisualizer3D/MainWindow.xaml.cs:557-559 | at a zero offset, a "Bottom" component with non-zero z sits at +z, where the full build put it at -z |

## Left out

- File dialogs, `File.ReadAllText`, JSON deserialisation and the message box are left out. Their combined result is the `ParseOutcome` input to `LoadPcb`, and the message text is its result.
- The Excel-to-JSON conversion and its button are left out. They are a wrapper over the ClosedXML library.
- The internals of HelixToolkit's `MeshBuilder` and `MaterialHelper` are left out. A box or a cylinder is a record of its placement and size, and a material is its colour and specular power.
- WPF hit testing is left out. The first mesh hit is the `Pick` input, and a geometry hit is required to be a model shown in the viewport.
- The `componentGeometry.Geometry != null` test of the offset re-layout is taken as always true, because a box mesh is never null.
- The highlight animation's timing (800 ms, auto-reverse, repeating forever) is left out. Only starting and stopping the animation are modelled, as trace events.
- `ZoomExtents` is an external renderer call and appears only as a trace event.
- Viewer.MainWindow.CenterCameraOnPcb: `camera` holds the pose written before `ZoomExtents`. `ZoomExtents` then moves the camera's position and look direction to fit the scene, and that move is not modelled. The same holds for `ShowBoard` and `LoadPcb`.
- The camera-changed handler (camera text and zoom percentage), the mouse-move cursor text and the zoom-in/zoom-out buttons are left out. They are floating-point UI text and vector nudges outside the controller.
- The popups, the info-panel toggle, the hyperlink, About and Exit are left out.
- `MainWindowViewModel` is left out. It is property-change notification plumbing only.
- Number formatting is injected as the constants `format` and `formatDouble`. C#'s `float.ToString` and `double.ToString` depend on the culture and have no closed form. The panel lemmas assume only that formatted numbers hold no ':' or '\n'.
- The rotation's `Int32.ToString` writes the current culture's negative sign. The model always writes '-'.
- `String.StartsWith(string)` in the panel reading compares under the current culture, which skips ignorable code points such as a soft hyphen. The model compares character by character. A field value holding a line that starts with an ignorable code point followed by a key can therefore be read differently by the source.
- `double.TryParse` is injected as the constant `tryParse`, for the same reason.
- Coordinates are `real`; IEEE single- and double-precision rounding is not modelled.
- Exceptions thrown inside `DrawPCBWithComponents` or `CenterCameraOnPCB` are not modelled, for example a null `Components` list or null `Dimensions` in the document. The model's board always has every field.
