/** What the scene builders leave, box by box, and what selecting one of
    those boxes then does: the full build registers every drawn box with its
    info string and its original material, so a select and a deselect give
    the box back its colour; the offset re-layout registers no original, so a
    re-laid-out box never lights up and a deselect leaves it LightGray. */
module SceneFacts {
  import opened Wrappers
  import opened Text
  import opened PcbModel
  import opened Scene
  import opened InfoText
  import opened InfoRoundTrip
  import opened Viewer

  lemma {:induction false} DrawnInfosAt(ms: seq<Component>, describe: Component -> string, k: nat)
    requires k < |ms|
    ensures DrawnInfos(ms, describe)[k] == describe(ms[k])
    decreases |ms|
  {
    if k < |ms| - 1 {
      DrawnInfosAt(ms[..|ms| - 1], describe, k);
    }
  }

  lemma {:induction false} OffsetInfosAt(cs: seq<Component>, dx: real, dy: real, dz: real,
                                         describe: (Component, real, real, real) -> string, k: nat)
    requires k < |cs|
    ensures OffsetInfos(cs, dx, dy, dz, describe)[k] == describe(cs[k], dx, dy, dz)
    decreases |cs|
  {
    if k < |cs| - 1 {
      OffsetInfosAt(cs[..|cs| - 1], dx, dy, dz, describe, k);
    }
  }

  /** The `j`-th registered value sits at identity `first + j`. */
  lemma RegisterAt<T>(base: map<nat, T>, first: nat, values: seq<T>, j: nat)
    requires j < |values|
    ensures first + j in Register(base, first, values) && Register(base, first, values)[first + j] == values[j]
  {
    RegisterFacts(base, first, values);
  }

  /** The registries only grow: every entry below the new range is kept as it was. */
  lemma RegistryOnlyGrows<T>(base: map<nat, T>, first: nat, values: seq<T>)
    requires forall k :: k in base ==> k < first
    ensures forall k :: k in base ==> k in Register(base, first, values) && Register(base, first, values)[k] == base[k]
  {
    RegisterFacts(base, first, values);
  }

  /** The full build's fixed part: the three lights, the three axes and the
      slab come first, in that order, and the slab is the remembered one. */
  lemma BuiltScenery(children: seq<Visual>, geometry: seq<Geometry>, info: map<nat, string>,
                     originals: map<nat, Material>, pcbGeometry: Option<nat>, b: Board,
                     arena: seq<Geometry>, info0: map<nat, string>, originals0: map<nat, Material>,
                     describe: Component -> string)
    requires Built(children, geometry, info, originals, pcbGeometry, b, arena, info0, originals0, describe)
    ensures var g0 := |arena|;
      && |children| == 7 + |Mounted(b.components)|
      && |geometry| == g0 + 4 + |Mounted(b.components)|
      && children[..7] == Lights() + [ModelVisual(g0), ModelVisual(g0 + 1), ModelVisual(g0 + 2), ModelVisual(g0 + 3)]
      && geometry[..g0] == arena
      && geometry[g0..g0 + 3] == AxisGeometries()
      && geometry[g0 + 3] == SlabGeometry(b.dimensions)
      && pcbGeometry == Some(g0 + 3)
  {
    var g0 := |arena|;
    var ms := Mounted(b.components);
    var front := Lights() + VisualRange(g0, 3) + [ModelVisual(g0 + 3)];
    assert children[..7] == front;
    assert VisualRange(g0, 3) == [ModelVisual(g0), ModelVisual(g0 + 1), ModelVisual(g0 + 2)];
    assert geometry[g0..g0 + 3] == (AxisGeometries() + [SlabGeometry(b.dimensions)] + MountedGeometries(ms))[..3];
  }

  /** The full build's box for the `j`-th drawn component: its visual follows
      the slab's, its geometry obeys the face rule, and it is registered with
      its info string and with the very material it was made with. */
  lemma BuiltBoxAt(children: seq<Visual>, geometry: seq<Geometry>, info: map<nat, string>,
                   originals: map<nat, Material>, pcbGeometry: Option<nat>, b: Board,
                   arena: seq<Geometry>, info0: map<nat, string>, originals0: map<nat, Material>,
                   describe: Component -> string, j: nat)
    requires Built(children, geometry, info, originals, pcbGeometry, b, arena, info0, originals0, describe)
    requires j < |Mounted(b.components)|
    ensures var c := Mounted(b.components)[j];
      var id := |arena| + 4 + j;
      && children[7 + j] == ModelVisual(id)
      && id < |geometry| && geometry[id] == ComponentGeometry(c, c.face == TopFace)
      && id in info && info[id] == describe(c)
      && id in originals && originals[id] == ComponentMaterial(c)
      && geometry[id].material == originals[id]
  {
    var ms := Mounted(b.components);
    var first := |arena| + 4;
    RegisterAt(info0, first, DrawnInfos(ms, describe), j);
    RegisterAt(originals0, first, DrawnOriginals(ms), j);
    DrawnInfosAt(ms, describe, j);
    DrawnOriginalsAt(ms, j);
    MountedGeometriesAt(ms, j);
    assert geometry[first + j] == MountedGeometries(ms)[j];
    assert children[7 + j] == VisualRange(first, |ms|)[j];
  }

  /** Start then stop on a geometry that still has the material recorded for
      it: the start shows the overlay of that material and the stop gives
      the arena back exactly. */
  lemma HighlightRoundTrip(gs: seq<Geometry>, originals: map<nat, Material>, id: nat)
    requires id < |gs| && id in originals && gs[id].material == originals[id]
    ensures Highlighted(gs, originals, id)[id].material == Overlay(originals[id])
    ensures Unhighlighted(Highlighted(gs, originals, id), originals, id) == gs
  {
    var r := Unhighlighted(Highlighted(gs, originals, id), originals, id);
    assert r[id] == gs[id];
  }

  /** A box of a full build, selected and then deselected, is back in its own colour. */
  lemma BuiltBoxKeepsColour(children: seq<Visual>, geometry: seq<Geometry>, info: map<nat, string>,
                            originals: map<nat, Material>, pcbGeometry: Option<nat>, b: Board,
                            arena: seq<Geometry>, info0: map<nat, string>, originals0: map<nat, Material>,
                            describe: Component -> string, j: nat)
    requires Built(children, geometry, info, originals, pcbGeometry, b, arena, info0, originals0, describe)
    requires j < |Mounted(b.components)|
    ensures var id := |arena| + 4 + j;
      && id < |geometry|
      && Highlighted(geometry, originals, id)[id].material == Overlay(ComponentMaterial(Mounted(b.components)[j]))
      && Unhighlighted(Highlighted(geometry, originals, id), originals, id) == geometry
  {
    BuiltBoxAt(children, geometry, info, originals, pcbGeometry, b, arena, info0, originals0, describe, j);
    HighlightRoundTrip(geometry, originals, |arena| + 4 + j);
  }

  /** Selecting the box of a drawn component shows that component's fields:
      each text field trimmed, the position line as written. */
  lemma BuiltBoxPanel(children: seq<Visual>, geometry: seq<Geometry>, info: map<nat, string>,
                      originals: map<nat, Material>, pcbGeometry: Option<nat>, b: Board,
                      arena: seq<Geometry>, info0: map<nat, string>, originals0: map<nat, Material>,
                      format: real -> string, describe: Component -> string, j: nat)
    requires Built(children, geometry, info, originals, pcbGeometry, b, arena, info0, originals0, describe)
    requires forall c :: describe(c) == DrawInfo(c, format)
    requires forall v :: Plain(format(v))
    requires j < |Mounted(b.components)|
    requires var c := Mounted(b.components)[j];
      && Plain(c.location) && Plain(c.kind) && Plain(c.face) && Plain(c.kdtecPN)
      && Plain(c.customerPN) && Plain(c.makerPN) && Plain(c.description)
      && Plain(c.makerName) && Plain(c.process)
    ensures var c := Mounted(b.components)[j];
      var id := |arena| + 4 + j;
      && id in info
      && PanelOf(info[id])
         == Panel(Trim(c.location), Trim(c.kind), DrawPositionLine(c, format), Trim(c.face),
                  Trim(c.kdtecPN), Trim(c.customerPN), Trim(c.makerPN), Trim(c.description),
                  Trim(c.makerName), Trim(c.process), Trim(DimensionsText(c.dimensions, format)))
  {
    var c := Mounted(b.components)[j];
    BuiltBoxAt(children, geometry, info, originals, pcbGeometry, b, arena, info0, originals0, describe, j);
    PanelOfDrawInfo(c, format);
  }

  /** The offset re-layout's box for the `j`-th component: its visual follows
      the kept children, it sits at the shifted position whatever the face,
      and it is registered with its shifted info string. */
  lemma RelaidBoxAt(children: seq<Visual>, geometry: seq<Geometry>, info: map<nat, string>,
                    children0: seq<Visual>, arena: seq<Geometry>, info0: map<nat, string>,
                    cs: seq<Component>, dx: real, dy: real, dz: real,
                    describe: (Component, real, real, real) -> string, j: nat)
    requires Relaidout(children, geometry, info, children0, arena, info0, cs, dx, dy, dz, describe)
    requires j < |cs|
    ensures var kept := UnregisteredOf(children0, info0.Keys);
      var id := |arena| + j;
      && |children| == |kept| + |cs| && children[..|kept|] == kept
      && children[|kept| + j] == ModelVisual(id)
      && id < |geometry| && geometry[id] == OffsetGeometry(cs[j], dx, dy, dz)
      && geometry[id].shape.center == Point(cs[j].x + dx, cs[j].y + dy, cs[j].z + dz)
      && id in info && info[id] == describe(cs[j], dx, dy, dz)
  {
    var kept := UnregisteredOf(children0, info0.Keys);
    var first := |arena|;
    RegisterAt(info0, first, OffsetInfos(cs, dx, dy, dz, describe), j);
    OffsetInfosAt(cs, dx, dy, dz, describe, j);
    OffsetGeometriesAt(cs, j, dx, dy, dz);
    assert geometry[first + j] == OffsetGeometries(cs, dx, dy, dz)[j];
    assert children[|kept| + j] == VisualRange(first, |cs|)[j];
  }

  /** A box of the offset re-layout has no recorded original, since the
      re-layout records none: a start leaves it as it is, and a stop turns it
      into the LightGray fallback, whatever its type's colour. */
  lemma RelaidBoxLosesColour(geometry: seq<Geometry>, originals: map<nat, Material>, arena: seq<Geometry>,
                             cs: seq<Component>, dx: real, dy: real, dz: real, j: nat)
    requires geometry == arena + OffsetGeometries(cs, dx, dy, dz)
    requires forall k :: k in originals ==> k < |arena|
    requires j < |cs|
    ensures var id := |arena| + j;
      && id < |geometry| && id !in originals
      && geometry[id].material == ComponentMaterial(cs[j])
      && Highlighted(geometry, originals, id) == geometry
      && Unhighlighted(geometry, originals, id)[id].material == Fallback
      && Unhighlighted(geometry, originals, id)[id].material != geometry[id].material
  {
    OffsetGeometriesAt(cs, j, dx, dy, dz);
    assert geometry[|arena| + j] == OffsetGeometries(cs, dx, dy, dz)[j];
  }

  /** The offset re-layout does not mirror by face: at a zero offset a
      "Bottom" component with a non-zero z sits at +z, where the full build
      put it at -z. */
  lemma ZeroOffsetKeepsBottomAbove(c: Component)
    requires c.face == BottomFace && c.z != 0.0
    ensures OffsetGeometry(c, 0.0, 0.0, 0.0).shape.center.z == c.z
    ensures ComponentGeometry(c, c.face == TopFace).shape.center.z == -c.z
    ensures OffsetGeometry(c, 0.0, 0.0, 0.0) != ComponentGeometry(c, c.face == TopFace)
  {
    assert c.face != TopFace;
  }
}
