/** The main window's scene and selection controller: the handlers that build
    the scene from a board, pick and highlight a component, re-lay the
    components out at an offset, frame the camera and load a parse result.

    Every geometry model the window ever creates is kept in the arena
    `geometry`, and its index there is its identity: the viewport's children,
    the info registry and the recorded original materials refer to geometry
    models by that index. A geometry model taken out of the viewport stays in
    the arena, as the C# object stays reachable from the registry. */
module Viewer {
  import opened Wrappers
  import opened Text
  import opened PcbModel
  import opened Scene
  import opened InfoText

  /** What a click hits: nothing that is a mesh (a miss), a geometry model of
      the arena that is shown in the viewport, or a mesh hit whose model is
      not a geometry model. */
  datatype Pick = Miss | HitGeometry(id: nat) | HitNonGeometry

  /** What reading and deserialising the chosen file gives: a board, a
      document that deserialises to null, or an exception with its message. */
  datatype ParseOutcome = Parsed(board: Board) | ParsedNull | ParseThrew(message: string)

  /** The commands the window issues to the renderer and animation clock. */
  datatype Event =
    | AnimationStarted(geometry: nat)
    | AnimationStopped(geometry: nat)
    | ZoomedExtents

  // ---------------------------------------------------------------------------
  // The scene's bookkeeping as values
  // ---------------------------------------------------------------------------

  /** A registry with one entry added for each value, at consecutive
      identities from `first`. */
  function Register<T>(base: map<nat, T>, first: nat, values: seq<T>): map<nat, T>
    decreases |values|
  {
    if |values| == 0 then base
    else Register(base, first, values[..|values| - 1])[first + |values| - 1 := values[|values| - 1]]
  }

  /** A registry holds the base's keys and the range, the values at their
      identities, and the base's entries outside the range unchanged. */
  lemma {:induction false} RegisterFacts<T>(base: map<nat, T>, first: nat, values: seq<T>)
    ensures forall k :: k in Register(base, first, values) <==> k in base || first <= k < first + |values|
    ensures forall j :: 0 <= j < |values| ==> Register(base, first, values)[first + j] == values[j]
    ensures forall k :: k in base && !(first <= k < first + |values|) ==> Register(base, first, values)[k] == base[k]
    decreases |values|
  {
    if values != [] {
      RegisterFacts(base, first, values[..|values| - 1]);
    }
  }

  /** A registry's keys are the base's and the range. */
  lemma RegisterKeys<T>(base: map<nat, T>, first: nat, values: seq<T>)
    ensures forall k :: k in Register(base, first, values) <==> k in base || first <= k < first + |values|
  {
    RegisterFacts(base, first, values);
  }

  /** The info strings the full build records, one per drawn component,
      each as `describe` writes it. */
  function DrawnInfos(ms: seq<Component>, describe: Component -> string): (infos: seq<string>)
    ensures |infos| == |ms|
    decreases |ms|
  {
    if ms == [] then [] else DrawnInfos(ms[..|ms| - 1], describe) + [describe(ms[|ms| - 1])]
  }

  /** The original materials the full build records, one per drawn component. */
  function DrawnOriginals(ms: seq<Component>): (mats: seq<Material>)
    ensures |mats| == |ms|
    decreases |ms|
  {
    if ms == [] then [] else DrawnOriginals(ms[..|ms| - 1]) + [ComponentMaterial(ms[|ms| - 1])]
  }

  /** The info strings the offset re-layout records, one per component,
      each as `describe` writes it for the offset. */
  function OffsetInfos(cs: seq<Component>, dx: real, dy: real, dz: real,
                       describe: (Component, real, real, real) -> string): (infos: seq<string>)
    ensures |infos| == |cs|
    decreases |cs|
  {
    if cs == [] then [] else OffsetInfos(cs[..|cs| - 1], dx, dy, dz, describe) + [describe(cs[|cs| - 1], dx, dy, dz)]
  }

  /** The arena with geometry `id` given material `m`. */
  function WithMaterial(gs: seq<Geometry>, id: nat, m: Material): (r: seq<Geometry>)
    requires id < |gs|
    ensures |r| == |gs| && r[id] == Geometry(gs[id].shape, m)
    ensures forall j :: 0 <= j < |gs| && j != id ==> r[j] == gs[j]
  {
    gs[id := Geometry(gs[id].shape, m)]
  }

  /** The material a highlight stop leaves: the recorded original, or the
      plain LightGray fallback when none was recorded. With plain originals
      it is never an overlay, and it is the fallback exactly when no
      original was recorded. */
  function RestoredMaterial(originals: map<nat, Material>, id: nat): (m: Material)
    ensures PlainOriginals(originals) ==> !m.Overlay? && (m.Fallback? <==> id !in originals)
  {
    if id in originals then originals[id] else Fallback
  }

  /** The arena after a highlight start on `id`: the recorded original under
      the emissive overlay, and no change at all when none was recorded. */
  function Highlighted(gs: seq<Geometry>, originals: map<nat, Material>, id: nat): seq<Geometry>
    requires id < |gs|
  {
    if id in originals then WithMaterial(gs, id, Overlay(originals[id])) else gs
  }

  /** The arena after a highlight stop on `id`. */
  function Unhighlighted(gs: seq<Geometry>, originals: map<nat, Material>, id: nat): seq<Geometry>
    requires id < |gs|
  {
    WithMaterial(gs, id, RestoredMaterial(originals, id))
  }

  /** The highlight invariant: the selected geometry carries the overlay of
      its original exactly when an original is recorded for it, and no other
      geometry carries an overlay. */
  ghost predicate HighlightState(gs: seq<Geometry>, originals: map<nat, Material>, selected: Option<nat>) {
    forall id :: 0 <= id < |gs| ==>
      (gs[id].material.Overlay? <==> selected == Some(id) && id in originals)
      && (gs[id].material.Overlay? ==> id in originals && gs[id].material == Overlay(originals[id]))
  }

  /** Every recorded original is a plain material. */
  ghost predicate PlainOriginals(originals: map<nat, Material>) {
    forall id :: id in originals ==> originals[id].Solid?
  }

  /** The window's invariant over its state: identities in range; the slab
      unregistered; originals plain; the selection registered; and the
      highlight invariant. */
  ghost predicate Consistent(children: seq<Visual>, geometry: seq<Geometry>, modelInfo: map<nat, string>,
                             originals: map<nat, Material>, selected: Option<nat>, pcbGeometry: Option<nat>)
  {
    && (forall v :: v in children && v.ModelVisual? ==> v.geometry < |geometry|)
    && (forall id :: id in modelInfo ==> id < |geometry|)
    && (forall id :: id in originals ==> id < |geometry|)
    && PlainOriginals(originals)
    && (selected.Some? ==> selected.value in modelInfo)
    && (pcbGeometry.Some? ==> pcbGeometry.value < |geometry|
                               && pcbGeometry.value !in modelInfo
                               && pcbGeometry.value !in originals)
    && HighlightState(geometry, originals, selected)
  }

  // ---------------------------------------------------------------------------
  // Lemmas about the bookkeeping
  // ---------------------------------------------------------------------------

  /** Deselecting keeps the invariant: the stop leaves no overlay and no selection. */
  lemma DeselectKeepsConsistent(children: seq<Visual>, gs: seq<Geometry>, info: map<nat, string>,
                                originals: map<nat, Material>, prev: nat, pcb: Option<nat>)
    requires Consistent(children, gs, info, originals, Some(prev), pcb)
    ensures prev < |gs| && (gs[prev].material.Overlay? <==> prev in originals)
    ensures Consistent(children, Unhighlighted(gs, originals, prev), info, originals, None, pcb)
  {
    StopLeavesNoOverlay(gs, originals, prev);
  }

  /** Selecting a registered geometry keeps the invariant, whatever was selected before. */
  lemma SelectKeepsConsistent(children: seq<Visual>, gs: seq<Geometry>, info: map<nat, string>,
                              originals: map<nat, Material>, prev: Option<nat>, id: nat, pcb: Option<nat>)
    requires id in info && Consistent(children, gs, info, originals, prev, pcb)
    ensures id < |gs| && (prev.Some? ==> prev.value < |gs| && (gs[prev.value].material.Overlay? <==> prev.value in originals))
    ensures var stopped := if prev.Some? && prev != Some(id) then Unhighlighted(gs, originals, prev.value) else gs;
      && |stopped| == |gs|
      && Consistent(children, Highlighted(stopped, originals, id), info, originals, Some(id), pcb)
  {
    if prev.Some? && prev != Some(id) {
      StopLeavesNoOverlay(gs, originals, prev.value);
      StartHighlightsOnlyTarget(Unhighlighted(gs, originals, prev.value), originals, id);
    } else {
      StartHighlightsOnlyTarget(gs, originals, id);
    }
  }

  /** Stopping the highlight of the selected geometry leaves no overlay anywhere. */
  lemma StopLeavesNoOverlay(gs: seq<Geometry>, originals: map<nat, Material>, a: nat)
    requires a < |gs| && HighlightState(gs, originals, Some(a)) && PlainOriginals(originals)
    ensures HighlightState(Unhighlighted(gs, originals, a), originals, None)
    ensures forall j :: 0 <= j < |gs| ==> !Unhighlighted(gs, originals, a)[j].material.Overlay?
  {
    var r := Unhighlighted(gs, originals, a);
    forall j | 0 <= j < |gs| ensures !r[j].material.Overlay? {
      if j == a {
        assert r[j].material == RestoredMaterial(originals, a);
      } else {
        assert r[j] == gs[j];
      }
    }
  }

  /** Starting the highlight of `b` when nothing else is overlaid makes `b`
      the only highlighted geometry, for a first selection and a repeated one. */
  lemma StartHighlightsOnlyTarget(gs: seq<Geometry>, originals: map<nat, Material>, b: nat)
    requires b < |gs| && PlainOriginals(originals)
    requires HighlightState(gs, originals, None) || HighlightState(gs, originals, Some(b))
    ensures HighlightState(Highlighted(gs, originals, b), originals, Some(b))
  {
    var r := Highlighted(gs, originals, b);
    forall j | 0 <= j < |gs|
      ensures (r[j].material.Overlay? <==> Some(b) == Some(j) && j in originals)
      ensures r[j].material.Overlay? ==> j in originals && r[j].material == Overlay(originals[j])
    {
      if j != b {
        assert r[j] == gs[j];
      }
    }
  }

  /** At most one geometry carries an overlay. */
  lemma AtMostOneHighlight(gs: seq<Geometry>, originals: map<nat, Material>, selected: Option<nat>, i: nat, j: nat)
    requires HighlightState(gs, originals, selected)
    requires i < |gs| && j < |gs| && gs[i].material.Overlay? && gs[j].material.Overlay?
    ensures i == j && selected == Some(i)
  {
  }

  /** Registering one more value adds one entry at the next identity. */
  lemma RegisterSnoc<T>(base: map<nat, T>, first: nat, values: seq<T>, v: T)
    ensures Register(base, first, values + [v]) == Register(base, first, values)[first + |values| := v]
  {
    assert (values + [v])[..|values|] == values;
  }

  /** The registered visuals of a full build's children are exactly its boxes:
      what the offset re-layout keeps of them is the lights, axes and slab. */
  lemma {:induction false} RelayoutKeepsScenery(scenery: seq<Visual>, first: nat, n: nat, registry: set<nat>)
    requires forall i :: 0 <= i < |scenery| ==> !Registered(scenery[i], registry)
    requires forall j :: first <= j < first + n ==> j in registry
    ensures UnregisteredOf(scenery + VisualRange(first, n), registry) == scenery
    ensures |RegisteredOf(scenery + VisualRange(first, n), registry)| == n
    decreases |scenery|
  {
    if scenery == [] {
      BoxesAllRegistered(first, n, registry);
      assert scenery + VisualRange(first, n) == VisualRange(first, n);
    } else {
      RelayoutKeepsScenery(scenery[1..], first, n, registry);
      assert (scenery + VisualRange(first, n))[1..] == scenery[1..] + VisualRange(first, n);
      assert [scenery[0]] + scenery[1..] == scenery;
    }
  }

  /** A range of registered boxes is all registered. */
  lemma {:induction false} BoxesAllRegistered(first: nat, n: nat, registry: set<nat>)
    requires forall j :: first <= j < first + n ==> j in registry
    ensures UnregisteredOf(VisualRange(first, n), registry) == []
    ensures |RegisteredOf(VisualRange(first, n), registry)| == n
    decreases n
  {
    if n > 0 {
      BoxesAllRegistered(first + 1, n - 1, registry);
      assert VisualRange(first, n)[1..] == VisualRange(first + 1, n - 1);
    }
  }

  /** The full build, the step the loop takes: the drawn components of a
      longer prefix are those of the shorter one and perhaps the next. */
  lemma MountedStep(cs: seq<Component>, i: nat)
    requires i < |cs|
    ensures Mounted(cs[..i + 1]) == Mounted(cs[..i]) + (if IsMounted(cs[i]) then [cs[i]] else [])
  {
    assert cs[..i + 1][..i] == cs[..i];
  }

  lemma {:induction false} MountedGeometriesAt(ms: seq<Component>, k: nat)
    requires k < |ms|
    ensures MountedGeometries(ms)[k] == ComponentGeometry(ms[k], ms[k].face == TopFace)
    decreases |ms|
  {
    if k < |ms| - 1 {
      MountedGeometriesAt(ms[..|ms| - 1], k);
    }
  }

  lemma {:induction false} DrawnOriginalsAt(ms: seq<Component>, k: nat)
    requires k < |ms|
    ensures DrawnOriginals(ms)[k] == ComponentMaterial(ms[k])
    decreases |ms|
  {
    if k < |ms| - 1 {
      DrawnOriginalsAt(ms[..|ms| - 1], k);
    }
  }

  lemma {:induction false} OffsetGeometriesAt(cs: seq<Component>, k: nat, dx: real, dy: real, dz: real)
    requires k < |cs|
    ensures OffsetGeometries(cs, dx, dy, dz)[k] == OffsetGeometry(cs[k], dx, dy, dz)
    decreases |cs|
  {
    if k < |cs| - 1 {
      OffsetGeometriesAt(cs[..|cs| - 1], k, dx, dy, dz);
    }
  }

  lemma AppendAssoc<T>(a: seq<T>, b: seq<T>, c: seq<T>)
    ensures (a + b) + c == a + (b + c)
  {
  }

  /** The scene after the full build has drawn the components `ms` on top of
      `children0`, `arena`, `info0` and `originals0`. */
  ghost predicate Drawn(children: seq<Visual>, geometry: seq<Geometry>, info: map<nat, string>,
                        originals: map<nat, Material>, children0: seq<Visual>, arena: seq<Geometry>,
                        info0: map<nat, string>, originals0: map<nat, Material>,
                        ms: seq<Component>, describe: Component -> string)
  {
    && children == children0 + VisualRange(|arena|, |ms|)
    && geometry == arena + MountedGeometries(ms)
    && info == Register(info0, |arena|, DrawnInfos(ms, describe))
    && originals == Register(originals0, |arena|, DrawnOriginals(ms))
  }

  /** Drawing one more component, as `DrawComponent` does, extends the drawn scene by it. */
  lemma DrawnStep(children: seq<Visual>, geometry: seq<Geometry>, info: map<nat, string>,
                  originals: map<nat, Material>, children0: seq<Visual>, arena: seq<Geometry>,
                  info0: map<nat, string>, originals0: map<nat, Material>,
                  ms: seq<Component>, c: Component, describe: Component -> string)
    requires Drawn(children, geometry, info, originals, children0, arena, info0, originals0, ms, describe)
    ensures Drawn(children + [ModelVisual(|geometry|)], geometry + [ComponentGeometry(c, c.face == TopFace)],
                  info[|geometry| := describe(c)], originals[|geometry| := ComponentMaterial(c)],
                  children0, arena, info0, originals0, ms + [c], describe)
  {
    var first := |arena|;
    assert |geometry| == first + |ms|;
    assert (ms + [c])[..|ms|] == ms;
    AppendAssoc(children0, VisualRange(first, |ms|), [ModelVisual(first + |ms|)]);
    AppendAssoc(arena, MountedGeometries(ms), [ComponentGeometry(c, c.face == TopFace)]);
    assert DrawnInfos(ms + [c], describe) == DrawnInfos(ms, describe) + [describe(c)];
    assert DrawnOriginals(ms + [c]) == DrawnOriginals(ms) + [ComponentMaterial(c)];
    RegisterSnoc(info0, first, DrawnInfos(ms, describe), describe(c));
    RegisterSnoc(originals0, first, DrawnOriginals(ms), ComponentMaterial(c));
  }

  /** The scene after the offset re-layout has added the components `cs` on
      top of `kept`, `arena` and `info0`. */
  ghost predicate Relaid(children: seq<Visual>, geometry: seq<Geometry>, info: map<nat, string>,
                         kept: seq<Visual>, arena: seq<Geometry>, info0: map<nat, string>,
                         cs: seq<Component>, dx: real, dy: real, dz: real,
                         describe: (Component, real, real, real) -> string)
  {
    && children == kept + VisualRange(|arena|, |cs|)
    && geometry == arena + OffsetGeometries(cs, dx, dy, dz)
    && info == Register(info0, |arena|, OffsetInfos(cs, dx, dy, dz, describe))
  }

  /** Adding one more shifted box extends the re-laid-out scene by it. */
  lemma RelaidStep(children: seq<Visual>, geometry: seq<Geometry>, info: map<nat, string>,
                   kept: seq<Visual>, arena: seq<Geometry>, info0: map<nat, string>,
                   cs: seq<Component>, c: Component, dx: real, dy: real, dz: real,
                   describe: (Component, real, real, real) -> string)
    requires Relaid(children, geometry, info, kept, arena, info0, cs, dx, dy, dz, describe)
    ensures Relaid(children + [ModelVisual(|geometry|)], geometry + [OffsetGeometry(c, dx, dy, dz)],
                   info[|geometry| := describe(c, dx, dy, dz)], kept, arena, info0, cs + [c], dx, dy, dz, describe)
  {
    var first := |arena|;
    assert |geometry| == first + |cs|;
    assert (cs + [c])[..|cs|] == cs;
    AppendAssoc(kept, VisualRange(first, |cs|), [ModelVisual(first + |cs|)]);
    AppendAssoc(arena, OffsetGeometries(cs, dx, dy, dz), [OffsetGeometry(c, dx, dy, dz)]);
    assert OffsetInfos(cs + [c], dx, dy, dz, describe) == OffsetInfos(cs, dx, dy, dz, describe) + [describe(c, dx, dy, dz)];
    RegisterSnoc(info0, first, OffsetInfos(cs, dx, dy, dz, describe), describe(c, dx, dy, dz));
  }

  /** The scene a full build of `b` leaves on top of `arena`, `info0` and `originals0`. */
  ghost predicate Built(children: seq<Visual>, geometry: seq<Geometry>, info: map<nat, string>,
                        originals: map<nat, Material>, pcbGeometry: Option<nat>,
                        b: Board, arena: seq<Geometry>, info0: map<nat, string>, originals0: map<nat, Material>,
                        describe: Component -> string)
  {
    var g0 := |arena|;
    var ms := Mounted(b.components);
    && children == Lights() + VisualRange(g0, 3) + [ModelVisual(g0 + 3)] + VisualRange(g0 + 4, |ms|)
    && geometry == arena + AxisGeometries() + [SlabGeometry(b.dimensions)] + MountedGeometries(ms)
    && pcbGeometry == Some(g0 + 3)
    && info == Register(info0, g0 + 4, DrawnInfos(ms, describe))
    && originals == Register(originals0, g0 + 4, DrawnOriginals(ms))
  }

  /** A full build keeps the invariant, the selection kept as it was. */
  lemma BuiltConsistent(children: seq<Visual>, geometry: seq<Geometry>, info: map<nat, string>,
                        originals: map<nat, Material>, pcbGeometry: Option<nat>, selected: Option<nat>,
                        b: Board, children0: seq<Visual>, arena: seq<Geometry>, info0: map<nat, string>,
                        originals0: map<nat, Material>, pcb0: Option<nat>, describe: Component -> string)
    requires Built(children, geometry, info, originals, pcbGeometry, b, arena, info0, originals0, describe)
    requires Consistent(children0, arena, info0, originals0, selected, pcb0)
    ensures Consistent(children, geometry, info, originals, selected, pcbGeometry)
  {
    var g0 := |arena|;
    var ms := Mounted(b.components);
    var first := g0 + 4;
    RegisterKeys(info0, first, DrawnInfos(ms, describe));
    RegisterKeys(originals0, first, DrawnOriginals(ms));
    BuiltChildrenInRange(children, g0, |ms|, |geometry|);
    BuiltOriginalsPlain(originals, ms, first, originals0);
    BuiltHighlight(geometry, originals, selected, b.dimensions, ms, arena, originals0);
  }

  /** The originals a full build records are plain. */
  lemma BuiltOriginalsPlain(originals: map<nat, Material>, ms: seq<Component>, first: nat,
                            originals0: map<nat, Material>)
    requires originals == Register(originals0, first, DrawnOriginals(ms))
    requires PlainOriginals(originals0)
    ensures PlainOriginals(originals)
  {
    RegisterFacts(originals0, first, DrawnOriginals(ms));
    forall id | id in originals ensures originals[id].Solid? {
      if first <= id < first + |ms| {
        DrawnOriginalsAt(ms, id - first);
        assert originals[first + (id - first)] == DrawnOriginals(ms)[id - first];
      }
    }
  }

  /** Every visual a full build leaves refers to a geometry of the arena. */
  lemma BuiltChildrenInRange(children: seq<Visual>, g0: nat, n: nat, size: nat)
    requires children == Lights() + VisualRange(g0, 3) + [ModelVisual(g0 + 3)] + VisualRange(g0 + 4, n)
    requires size == g0 + 4 + n
    ensures forall v :: v in children && v.ModelVisual? ==> v.geometry < size
  {
    forall v | v in children && v.ModelVisual? ensures v.geometry < size {
      var k :| 0 <= k < |children| && children[k] == v;
    }
  }

  /** A full build adds no overlay and keeps the one of a selection below it. */
  lemma BuiltHighlight(geometry: seq<Geometry>, originals: map<nat, Material>, selected: Option<nat>,
                       d: Dimensions, ms: seq<Component>, arena: seq<Geometry>, originals0: map<nat, Material>)
    requires geometry == arena + AxisGeometries() + [SlabGeometry(d)] + MountedGeometries(ms)
    requires originals == Register(originals0, |arena| + 4, DrawnOriginals(ms))
    requires forall id :: id in originals0 ==> id < |arena|
    requires selected.Some? ==> selected.value < |arena|
    requires HighlightState(arena, originals0, selected)
    ensures HighlightState(geometry, originals, selected)
  {
    var g0 := |arena|;
    var first := g0 + 4;
    RegisterFacts(originals0, first, DrawnOriginals(ms));
    forall id | 0 <= id < |geometry|
      ensures (geometry[id].material.Overlay? <==> selected == Some(id) && id in originals)
      ensures geometry[id].material.Overlay? ==> id in originals && geometry[id].material == Overlay(originals[id])
    {
      if id < g0 {
        assert geometry[id] == arena[id];
      } else if id < first {
        assert id !in originals;
      } else {
        MountedGeometriesAt(ms, id - first);
        assert geometry[id] == MountedGeometries(ms)[id - first];
      }
    }
  }

  /** The scene the offset re-layout of `cs` leaves on top of `children0`, `arena` and `info0`. */
  ghost predicate Relaidout(children: seq<Visual>, geometry: seq<Geometry>, info: map<nat, string>,
                            children0: seq<Visual>, arena: seq<Geometry>, info0: map<nat, string>,
                            cs: seq<Component>, dx: real, dy: real, dz: real,
                            describe: (Component, real, real, real) -> string)
  {
    Relaid(children, geometry, info, UnregisteredOf(children0, info0.Keys), arena, info0, cs, dx, dy, dz, describe)
  }

  /** The offset re-layout keeps the invariant: it records no originals, adds
      no overlay and keeps the selection and the slab. */
  lemma RelaidConsistent(children: seq<Visual>, geometry: seq<Geometry>, info: map<nat, string>,
                         originals: map<nat, Material>, pcbGeometry: Option<nat>, selected: Option<nat>,
                         children0: seq<Visual>, arena: seq<Geometry>, info0: map<nat, string>,
                         cs: seq<Component>, dx: real, dy: real, dz: real,
                         describe: (Component, real, real, real) -> string)
    requires Relaidout(children, geometry, info, children0, arena, info0, cs, dx, dy, dz, describe)
    requires Consistent(children0, arena, info0, originals, selected, pcbGeometry)
    ensures Consistent(children, geometry, info, originals, selected, pcbGeometry)
  {
    var g0 := |arena|;
    var kept := UnregisteredOf(children0, info0.Keys);
    RegisterFacts(info0, g0, OffsetInfos(cs, dx, dy, dz, describe));
    forall v | v in children && v.ModelVisual? ensures v.geometry < |geometry| {
      if v in kept {
        UnregisteredMembers(children0, info0.Keys, v);
      } else {
        var k :| 0 <= k < |children| && children[k] == v;
        assert k >= |kept|;
      }
    }
    forall id | 0 <= id < |geometry|
      ensures (geometry[id].material.Overlay? <==> selected == Some(id) && id in originals)
      ensures geometry[id].material.Overlay? ==> id in originals && geometry[id].material == Overlay(originals[id])
    {
      if id < g0 {
        assert geometry[id] == arena[id];
      } else {
        OffsetGeometriesAt(cs, id - g0, dx, dy, dz);
        assert geometry[id] == OffsetGeometries(cs, dx, dy, dz)[id - g0];
      }
    }
  }

  // ---------------------------------------------------------------------------
  // The window
  // ---------------------------------------------------------------------------

  class MainWindow {
    /** `float.ToString()` as the info string interpolation applies it. */
    const format: real -> string
    /** `double.ToString()`, which the offset re-layout's interpolation applies
        to a `float` coordinate plus a `double` offset. */
    const formatDouble: real -> string
    /** `double.TryParse` on the offset text boxes. */
    const tryParse: string -> Option<real>
    /** The info string `DrawComponent` interpolates for a component. */
    const drawInfo: Component -> string
    /** The info string `DrawComponentsWithOffset` interpolates for a component at an offset. */
    const offsetInfo: (Component, real, real, real) -> string

    /** The two interpolations write `DrawInfo` under `format`, and
        `OffsetInfo` under `format` and `formatDouble`. */
    ghost predicate Templates() {
      && (forall c :: drawInfo(c) == DrawInfo(c, format))
      && (forall c, dx, dy, dz :: offsetInfo(c, dx, dy, dz) == OffsetInfo(c, dx, dy, dz, format, formatDouble))
    }

    /** The viewport's children, in order. */
    var children: seq<Visual>
    /** Every geometry model created so far: shape and current material. */
    var geometry: seq<Geometry>
    /** `_modelInfo`: the info string of each registered geometry. */
    var modelInfo: map<nat, string>
    /** `_originalMaterials`: the material each box of the full build was made with. */
    var originalMaterials: map<nat, Material>
    /** `_selectedComponent`. */
    var selected: Option<nat>
    /** `_pcbGeometry`: the slab of the latest build. */
    var pcbGeometry: Option<nat>
    /** `_currentPCBModel`. */
    var currentModel: Option<Board>
    /** `_isAnimating`: written by a highlight stop, read nowhere. */
    var isAnimating: bool
    /** The viewport's camera, as the window last wrote it. */
    var camera: Camera
    /** The info panel's eleven text fields. */
    var panel: Panel
    /** The commands issued to the renderer so far. */
    ghost var trace: seq<Event>

    /** Identities in range; the slab unregistered; originals plain; the
        selection registered; and the highlight invariant. */
    ghost predicate Valid()
      reads this`children, this`geometry, this`modelInfo, this`originalMaterials, this`selected, this`pcbGeometry
    {
      Consistent(children, geometry, modelInfo, originalMaterials, selected, pcbGeometry)
    }

    /** The scene a full build of `b` leaves, given the arena and registries before it. */
    ghost predicate BuiltFrom(b: Board, arena: seq<Geometry>, info: map<nat, string>, originals: map<nat, Material>)
      reads this`children, this`geometry, this`modelInfo, this`originalMaterials, this`pcbGeometry
    {
      Built(children, geometry, modelInfo, originalMaterials, pcbGeometry, b, arena, info, originals, drawInfo)
    }

    /** An empty viewport with the given camera and panel text, and no board. */
    constructor (format: real -> string, formatDouble: real -> string, tryParse: string -> Option<real>,
                 camera: Camera, panel: Panel)
      ensures Valid()
      ensures this.format == format && this.formatDouble == formatDouble && this.tryParse == tryParse
      ensures Templates()
      ensures children == [] && geometry == [] && modelInfo == map[] && originalMaterials == map[]
      ensures selected == None && pcbGeometry == None && currentModel == None && !isAnimating
      ensures this.camera == camera && this.panel == panel && trace == []
    {
      this.format := format;
      this.formatDouble := formatDouble;
      this.tryParse := tryParse;
      drawInfo := c => DrawInfo(c, format);
      offsetInfo := (c, dx, dy, dz) => OffsetInfo(c, dx, dy, dz, format, formatDouble);
      children := [];
      geometry := [];
      modelInfo := map[];
      originalMaterials := map[];
      selected := None;
      pcbGeometry := None;
      currentModel := None;
      isAnimating := false;
      this.camera := camera;
      this.panel := panel;
      trace := [];
    }

    /** `new GeometryModel3D { … }`: a new geometry model, at the next identity. */
    method NewGeometry(g: Geometry) returns (id: nat)
      modifies this`geometry
      ensures id == |old(geometry)| && geometry == old(geometry) + [g]
    {
      id := |geometry|;
      geometry := geometry + [g];
    }

    /** `AddLights`: gray ambient light, white light from above and from below. */
    method AddLights()
      modifies this`children
      ensures children == old(children) + Lights()
    {
      children := children + [LightVisual(Ambient(Gray))];
      children := children + [LightVisual(Directional(White, Point(-1.0, -1.0, -1.0)))];
      children := children + [LightVisual(Directional(White, Point(1.0, 1.0, 1.0)))];
    }

    /** `DrawCoordinateSystem`: the three axis cylinders, each in its own visual. */
    method DrawCoordinateSystem()
      modifies this`geometry, this`children
      ensures geometry == old(geometry) + AxisGeometries()
      ensures children == old(children) + VisualRange(|old(geometry)|, 3)
    {
      var axes := AxisGeometries();
      var x := NewGeometry(axes[0]);
      children := children + [ModelVisual(x)];
      var y := NewGeometry(axes[1]);
      children := children + [ModelVisual(y)];
      var z := NewGeometry(axes[2]);
      children := children + [ModelVisual(z)];
      assert geometry == old(geometry) + axes;
    }

    /** `DrawComponent`: a box by the face rule, its original material and its
        info string recorded under its identity, its visual appended. */
    method DrawComponent(c: Component, isTopFace: bool)
      modifies this`geometry, this`children, this`modelInfo, this`originalMaterials
      ensures geometry == old(geometry) + [ComponentGeometry(c, isTopFace)]
      ensures children == old(children) + [ModelVisual(|old(geometry)|)]
      ensures originalMaterials == old(originalMaterials)[|old(geometry)| := ComponentMaterial(c)]
      ensures modelInfo == old(modelInfo)[|old(geometry)| := drawInfo(c)]
    {
      var box := ComponentGeometry(c, isTopFace);
      var id := NewGeometry(box);
      originalMaterials := originalMaterials[id := box.material];
      children := children + [ModelVisual(id)];
      modelInfo := modelInfo[id := drawInfo(c)];
    }

    /** `DrawPCBWithComponents`: clears the viewport; adds the lights, the axes
        and the slab; then one box per component whose face is exactly "Top"
        or "Bottom", in list order. The registries only grow, and the
        selection is left as it was. */
    method DrawPcbWithComponents(b: Board)
      requires Valid()
      modifies this`children, this`geometry, this`modelInfo, this`originalMaterials, this`pcbGeometry
      ensures Valid()
      ensures BuiltFrom(b, old(geometry), old(modelInfo), old(originalMaterials))
    {
      ghost var children0, arena, info0, originals0, pcb0 := children, geometry, modelInfo, originalMaterials, pcbGeometry;
      DrawScenery(b.dimensions);
      assert modelInfo == info0 && originalMaterials == originals0 && |geometry| == |arena| + 4;
      DrawMountedComponents(b.components);
      BuiltConsistent(children, geometry, modelInfo, originalMaterials, pcbGeometry, selected, b,
                      children0, arena, info0, originals0, pcb0, drawInfo);
    }

    /** The part of `DrawPCBWithComponents` before the components: the
        viewport cleared, then the lights, the axes and the board slab. */
    method DrawScenery(d: Dimensions)
      modifies this`children, this`geometry, this`pcbGeometry
      ensures children == Lights() + VisualRange(|old(geometry)|, 3) + [ModelVisual(|old(geometry)| + 3)]
      ensures geometry == old(geometry) + AxisGeometries() + [SlabGeometry(d)]
      ensures pcbGeometry == Some(|old(geometry)| + 3)
    {
      children := [];
      AddLights();
      assert children == Lights();
      DrawCoordinateSystem();
      DrawBoardSlab(d);
    }

    /** The board slab of `DrawPCBWithComponents`: a box of the board's
        dimensions with its corner at the origin, in the board colour,
        remembered as the slab and added in its own visual. */
    method DrawBoardSlab(d: Dimensions)
      modifies this`geometry, this`children, this`pcbGeometry
      ensures geometry == old(geometry) + [SlabGeometry(d)]
      ensures children == old(children) + [ModelVisual(|old(geometry)|)]
      ensures pcbGeometry == Some(|old(geometry)|)
    {
      var slab := NewGeometry(SlabGeometry(d));
      pcbGeometry := Some(slab);
      children := children + [ModelVisual(slab)];
    }

    /** The loop of `DrawPCBWithComponents`: a box for each component whose
        face is exactly "Top" or "Bottom", in list order, at consecutive
        identities, each registered with its info string and original material. */
    method DrawMountedComponents(cs: seq<Component>)
      modifies this`geometry, this`children, this`modelInfo, this`originalMaterials
      ensures children == old(children) + VisualRange(|old(geometry)|, |Mounted(cs)|)
      ensures geometry == old(geometry) + MountedGeometries(Mounted(cs))
      ensures modelInfo == Register(old(modelInfo), |old(geometry)|, DrawnInfos(Mounted(cs), drawInfo))
      ensures originalMaterials == Register(old(originalMaterials), |old(geometry)|, DrawnOriginals(Mounted(cs)))
    {
      ghost var ms: seq<Component> := [];
      assert old(children) + [] == old(children) && old(geometry) + [] == old(geometry);
      var i := 0;
      while i < |cs|
        invariant 0 <= i <= |cs| && ms == Mounted(cs[..i])
        invariant Drawn(children, geometry, modelInfo, originalMaterials,
                        old(children), old(geometry), old(modelInfo), old(originalMaterials), ms, drawInfo)
      {
        var c := cs[i];
        MountedStep(cs, i);
        if c.face == TopFace || c.face == BottomFace {
          DrawnStep(children, geometry, modelInfo, originalMaterials,
                    old(children), old(geometry), old(modelInfo), old(originalMaterials), ms, c, drawInfo);
          DrawComponent(c, c.face == TopFace);
          ms := ms + [c];
        } else {
          assert ms + [] == ms;
        }
        i := i + 1;
      }
      assert cs[..i] == cs;
    }

    /** `StartHighlightAnimation`: the recorded original under an emissive
        overlay, and its animation started; nothing at all without an original. */
    method StartHighlightAnimation(id: nat)
      requires id < |geometry|
      modifies this`geometry
      modifies this`trace
      ensures geometry == Highlighted(old(geometry), originalMaterials, id) && |geometry| == |old(geometry)|
      ensures trace == old(trace) + (if id in originalMaterials then [AnimationStarted(id)] else [])
    {
      if id !in originalMaterials {
        return;
      }
      var original := originalMaterials[id];
      geometry := WithMaterial(geometry, id, Overlay(original));
      trace := trace + [AnimationStarted(id)];
    }

    /** `StopHighlightAnimation`: stops the animation when the material is an
        overlay, then puts back the recorded original or the LightGray fallback. */
    method StopHighlightAnimation(id: nat)
      requires id < |geometry|
      modifies this`geometry, this`trace, this`isAnimating
      ensures geometry == Unhighlighted(old(geometry), originalMaterials, id) && |geometry| == |old(geometry)|
      ensures trace == old(trace) + (if old(geometry)[id].material.Overlay? then [AnimationStopped(id)] else [])
      ensures !isAnimating
    {
      if geometry[id].material.Overlay? {
        trace := trace + [AnimationStopped(id)];
      }
      geometry := WithMaterial(geometry, id, RestoredMaterial(originalMaterials, id));
      isAnimating := false;
    }

    /** `UpdateTextBlocks`: the panel shows the fields read from `info`. */
    method UpdateTextBlocks(info: string)
      modifies this`panel
      ensures panel == PanelOf(info)
    {
      panel := PanelOf(info);
    }

    /** `ClearTextBlocks`: every field back to "--". */
    method ClearTextBlocks()
      modifies this`panel
      ensures panel == ClearedPanel()
    {
      panel := ClearedPanel();
    }

    /** The hit branch of `HelixViewport_MouseDown` on a registered geometry:
        the previous selection, if another, is stopped first, then `id` is
        selected, highlighted and its fields shown. */
    method Select(id: nat)
      requires Valid() && id in modelInfo
      modifies this`geometry, this`trace, this`isAnimating, this`selected, this`panel
      ensures Valid()
      ensures var switching := old(selected).Some? && old(selected) != Some(id);
        var prev := if switching then old(selected).value else id;
        var stopped := if switching then Unhighlighted(old(geometry), originalMaterials, prev) else old(geometry);
        && selected == Some(id)
        && geometry == Highlighted(stopped, originalMaterials, id)
        && trace == old(trace)
                    + (if switching && prev in originalMaterials then [AnimationStopped(prev)] else [])
                    + (if id in originalMaterials then [AnimationStarted(id)] else [])
      ensures isAnimating == (if old(selected).Some? && old(selected) != Some(id) then false else old(isAnimating))
      ensures panel == PanelOf(modelInfo[id])
    {
      MoveHighlight(id);
      UpdateTextBlocks(modelInfo[id]);
    }

    /** The highlight part of `Select`: the previous selection, if another,
        is stopped, and `id` becomes the selection and is highlighted. */
    method MoveHighlight(id: nat)
      requires Valid() && id in modelInfo
      modifies this`geometry, this`trace, this`isAnimating, this`selected
      ensures Valid()
      ensures var switching := old(selected).Some? && old(selected) != Some(id);
        var prev := if switching then old(selected).value else id;
        var stopped := if switching then Unhighlighted(old(geometry), originalMaterials, prev) else old(geometry);
        && selected == Some(id)
        && geometry == Highlighted(stopped, originalMaterials, id)
        && trace == old(trace)
                    + (if switching && prev in originalMaterials then [AnimationStopped(prev)] else [])
                    + (if id in originalMaterials then [AnimationStarted(id)] else [])
      ensures isAnimating == (if old(selected).Some? && old(selected) != Some(id) then false else old(isAnimating))
    {
      SelectKeepsConsistent(children, geometry, modelInfo, originalMaterials, selected, id, pcbGeometry);
      if selected.Some? && selected.value != id {
        StopHighlightAnimation(selected.value);
      }
      selected := Some(id);
      StartHighlightAnimation(id);
    }

    /** The miss branch of `HelixViewport_MouseDown` with a selection: its
        highlight is stopped, the panel cleared and the selection forgotten. */
    method Deselect()
      requires Valid() && selected.Some?
      modifies this`geometry, this`trace, this`isAnimating, this`selected, this`panel
      ensures Valid()
      ensures var prev := old(selected).value;
        && selected == None
        && geometry == Unhighlighted(old(geometry), originalMaterials, prev)
        && trace == old(trace) + (if prev in originalMaterials then [AnimationStopped(prev)] else [])
        && panel == ClearedPanel()
        && !isAnimating
    {
      var prev := selected.value;
      DeselectKeepsConsistent(children, geometry, modelInfo, originalMaterials, prev, pcbGeometry);
      StopHighlightAnimation(prev);
      ClearTextBlocks();
      selected := None;
    }

    /** `HelixViewport_MouseDown`. A hit on a registered geometry selects it;
        a hit on anything else changes nothing; a miss deselects, if there is
        a selection. */
    method MouseDown(pick: Pick)
      requires Valid()
      requires pick.HitGeometry? ==> ModelVisual(pick.id) in children
      modifies this`geometry, this`trace, this`isAnimating, this`selected, this`panel
      ensures Valid()
      ensures pick.HitGeometry? && pick.id in modelInfo ==>
        var id := pick.id;
        var switching := old(selected).Some? && old(selected) != Some(id);
        var prev := if switching then old(selected).value else id;
        var stopped := if switching then Unhighlighted(old(geometry), originalMaterials, prev) else old(geometry);
        && selected == Some(id)
        && geometry == Highlighted(stopped, originalMaterials, id)
        && trace == old(trace)
                    + (if switching && prev in originalMaterials then [AnimationStopped(prev)] else [])
                    + (if id in originalMaterials then [AnimationStarted(id)] else [])
        && panel == PanelOf(modelInfo[id])
        && isAnimating == (if switching then false else old(isAnimating))
      ensures pick.Miss? && old(selected).Some? ==>
        var prev := old(selected).value;
        && selected == None
        && geometry == Unhighlighted(old(geometry), originalMaterials, prev)
        && trace == old(trace) + (if prev in originalMaterials then [AnimationStopped(prev)] else [])
        && panel == ClearedPanel()
        && !isAnimating
      ensures pick.HitNonGeometry? || (pick.HitGeometry? && pick.id !in modelInfo) || (pick.Miss? && old(selected).None?) ==>
        && selected == old(selected) && geometry == old(geometry) && trace == old(trace) && panel == old(panel)
        && isAnimating == old(isAnimating)
    {
      match pick
      case Miss =>
        if selected.Some? {
          Deselect();
        }
      case HitNonGeometry =>
      case HitGeometry(id) =>
        if id in modelInfo {
          Select(id);
        }
    }

    /** `ButtonResetSelection_Click`: stops and forgets any selection, and
        always clears the panel. */
    method ResetSelection()
      requires Valid()
      modifies this`geometry, this`trace, this`isAnimating, this`selected, this`panel
      ensures Valid()
      ensures selected == None && panel == ClearedPanel()
      ensures old(selected).Some? ==>
        var prev := old(selected).value;
        && geometry == Unhighlighted(old(geometry), originalMaterials, prev)
        && trace == old(trace) + (if prev in originalMaterials then [AnimationStopped(prev)] else [])
        && !isAnimating
      ensures old(selected).None? ==> geometry == old(geometry) && trace == old(trace) && isAnimating == old(isAnimating)
    {
      if selected.Some? {
        var prev := selected.value;
        DeselectKeepsConsistent(children, geometry, modelInfo, originalMaterials, prev, pcbGeometry);
        StopHighlightAnimation(prev);
        selected := None;
      }
      ClearTextBlocks();
    }

    /** `DrawComponentsWithOffset`: takes out every child whose geometry is
        registered, then adds one box per component, of every face, at the
        component's position shifted by the offset, registering its info
        string. No original material is recorded and the selection is kept. */
    method DrawComponentsWithOffset(cs: seq<Component>, dx: real, dy: real, dz: real)
      requires Valid()
      modifies this`children, this`geometry, this`modelInfo
      ensures Valid()
      ensures children == UnregisteredOf(old(children), old(modelInfo).Keys) + VisualRange(|old(geometry)|, |cs|)
      ensures geometry == old(geometry) + OffsetGeometries(cs, dx, dy, dz)
      ensures modelInfo == Register(old(modelInfo), |old(geometry)|, OffsetInfos(cs, dx, dy, dz, offsetInfo))
    {
      RemoveComponentVisuals();
      AddOffsetComponents(cs, dx, dy, dz);
      RelaidConsistent(children, geometry, modelInfo, originalMaterials, pcbGeometry, selected,
                       old(children), old(geometry), old(modelInfo), cs, dx, dy, dz, offsetInfo);
    }

    /** The first loop of `DrawComponentsWithOffset`: every child whose
        geometry is registered is removed, first occurrence by first occurrence. */
    method RemoveComponentVisuals()
      modifies this`children
      ensures children == UnregisteredOf(old(children), modelInfo.Keys)
    {
      var registered := RegisteredOf(children, modelInfo.Keys);
      WithoutNoneRegistered(children, modelInfo.Keys);
      var k := 0;
      while k < |registered|
        invariant 0 <= k <= |registered|
        invariant children == WithoutFirstRegistered(old(children), modelInfo.Keys, k)
      {
        RemoveNextRegistered(old(children), modelInfo.Keys, k);
        children := RemoveFirst(children, registered[k]);
        k := k + 1;
      }
      WithoutAllRegistered(old(children), modelInfo.Keys);
    }

    /** The second loop of `DrawComponentsWithOffset`: one box per component
        at its shifted position, registered with its shifted info string. */
    method AddOffsetComponents(cs: seq<Component>, dx: real, dy: real, dz: real)
      modifies this`children, this`geometry, this`modelInfo
      ensures Relaid(children, geometry, modelInfo, old(children), old(geometry), old(modelInfo),
                     cs, dx, dy, dz, offsetInfo)
    {
      assert old(children) + [] == old(children) && old(geometry) + [] == old(geometry);
      var i := 0;
      while i < |cs|
        invariant 0 <= i <= |cs|
        invariant Relaid(children, geometry, modelInfo, old(children), old(geometry), old(modelInfo),
                         cs[..i], dx, dy, dz, offsetInfo)
      {
        var c := cs[i];
        assert cs[..i + 1] == cs[..i] + [c];
        RelaidStep(children, geometry, modelInfo, old(children), old(geometry), old(modelInfo),
                   cs[..i], c, dx, dy, dz, offsetInfo);
        var id := NewGeometry(OffsetGeometry(c, dx, dy, dz));
        modelInfo := modelInfo[id := offsetInfo(c, dx, dy, dz)];
        children := children + [ModelVisual(id)];
        i := i + 1;
      }
      assert cs[..i] == cs;
    }

    /** `ApplyOffset_Click`: nothing without a board; otherwise each axis's
        text read as a number, 0 when it does not parse, and the board's
        components re-laid out at that offset. */
    method ApplyOffset(xText: string, yText: string, zText: string)
      requires Valid()
      modifies this`children, this`geometry, this`modelInfo
      ensures Valid()
      ensures currentModel.None? ==>
        children == old(children) && geometry == old(geometry) && modelInfo == old(modelInfo)
      ensures currentModel.Some? ==>
        var cs := currentModel.value.components;
        var dx, dy, dz := OrZero(tryParse(xText)), OrZero(tryParse(yText)), OrZero(tryParse(zText));
        && children == UnregisteredOf(old(children), old(modelInfo).Keys) + VisualRange(|old(geometry)|, |cs|)
        && geometry == old(geometry) + OffsetGeometries(cs, dx, dy, dz)
        && modelInfo == Register(old(modelInfo), |old(geometry)|, OffsetInfos(cs, dx, dy, dz, offsetInfo))
    {
      if currentModel.None? {
        return;
      }
      var dx := OrZero(tryParse(xText));
      var dy := OrZero(tryParse(yText));
      var dz := OrZero(tryParse(zText));
      DrawComponentsWithOffset(currentModel.value.components, dx, dy, dz);
    }

    /** `CenterCameraOnPCB`: with a board and a perspective camera, the
        camera is seeded with the framing pose and a zoom to extents is
        requested of the renderer; otherwise nothing. `camera` holds the
        seeded pose: the renderer's own move of the camera is not modelled. */
    method CenterCameraOnPcb()
      modifies this`camera, this`trace
      ensures currentModel.Some? && old(camera).Perspective? ==>
        camera == Perspective(FramingPose(currentModel.value.dimensions)) && trace == old(trace) + [ZoomedExtents]
      ensures currentModel.None? || !old(camera).Perspective? ==>
        camera == old(camera) && trace == old(trace)
    {
      if currentModel.None? || !camera.Perspective? {
        return;
      }
      camera := Perspective(FramingPose(currentModel.value.dimensions));
      trace := trace + [ZoomedExtents];
    }

    /** `LoadPCB`, given what reading and deserialising the file gave. A board
        replaces the current one, is drawn and framed. A null document
        replaces the current board with none and leaves the scene as it was.
        An exception changes nothing. The message box's text is returned. */
    method LoadPcb(outcome: ParseOutcome) returns (message: Option<string>)
      requires Valid()
      modifies this`currentModel, this`children, this`geometry, this`modelInfo, this`originalMaterials
      modifies this`pcbGeometry, this`camera, this`trace
      ensures Valid()
      ensures outcome.Parsed? ==>
        && currentModel == Some(outcome.board)
        && BuiltFrom(outcome.board, old(geometry), old(modelInfo), old(originalMaterials))
        && camera == (if old(camera).Perspective? then Perspective(FramingPose(outcome.board.dimensions)) else old(camera))
        && trace == old(trace) + (if old(camera).Perspective? then [ZoomedExtents] else [])
        && message == None
      ensures !outcome.Parsed? ==>
        && children == old(children) && geometry == old(geometry) && modelInfo == old(modelInfo)
        && originalMaterials == old(originalMaterials) && pcbGeometry == old(pcbGeometry)
        && camera == old(camera) && trace == old(trace)
      ensures outcome.ParsedNull? ==> currentModel == None && message == Some("Invalid JSON format.")
      ensures outcome.ParseThrew? ==>
        currentModel == old(currentModel) && message == Some("Error processing JSON file: " + outcome.message)
    {
      match outcome
      case ParseThrew(text) =>
        message := Some("Error processing JSON file: " + text);
      case ParsedNull =>
        currentModel := None;
        message := Some("Invalid JSON format.");
      case Parsed(b) =>
        currentModel := Some(b);
        ShowBoard(b);
        message := None;
    }

    /** The non-null branch of `LoadPCB`: the board is drawn, then framed. */
    method ShowBoard(b: Board)
      requires Valid() && currentModel == Some(b)
      modifies this`children, this`geometry, this`modelInfo, this`originalMaterials
      modifies this`pcbGeometry, this`camera, this`trace
      ensures Valid()
      ensures BuiltFrom(b, old(geometry), old(modelInfo), old(originalMaterials))
      ensures camera == (if old(camera).Perspective? then Perspective(FramingPose(b.dimensions)) else old(camera))
      ensures trace == old(trace) + (if old(camera).Perspective? then [ZoomedExtents] else [])
    {
      DrawPcbWithComponents(b);
      CenterCameraOnPcb();
    }
  }

  /** `double.TryParse`'s out value: the number, or 0 when the text does not parse. */
  function OrZero(parsed: Option<real>): real {
    if parsed.Some? then parsed.value else 0.0
  }

  /** The children that survive a re-layout were children before it. */
  lemma {:induction false} UnregisteredMembers(cs: seq<Visual>, registry: set<nat>, v: Visual)
    requires v in UnregisteredOf(cs, registry)
    ensures v in cs && !Registered(v, registry)
    decreases |cs|
  {
    if cs[0] != v || Registered(cs[0], registry) {
      UnregisteredMembers(cs[1..], registry, v);
    }
  }
}
