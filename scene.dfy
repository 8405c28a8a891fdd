/** The renderer-independent part of the viewer's scene: colours and
    materials, the shapes handed to the renderer, the component colour table,
    the per-face z rule, the camera pose that frames a board, and the list
    operations the scene rebuilds are made of. The renderer itself (meshes,
    lighting, hit testing) is outside the model: a shape is a plain record. */
module Scene {
  import opened Wrappers
  import opened PcbModel

  /** The named WPF colours the viewer uses. */
  datatype Color =
    | ForestGreen | Orange | Blue | Purple | Red | Black | Gray | WhiteSmoke
    | Yellow | LightBlue | Brown | LightGreen | Cyan | Pink | LightGray
    | White | Green

  /** The board slab's colour. */
  const PcbColor := ForestGreen

  /** The component colour table, keyed by the component's `Type` string. */
  const ColorTable: map<string, Color> := map[
    "Capacitor" := Orange,
    "Resistor" := Blue,
    "Inductor" := Purple,
    "Diode" := Red,
    "Transistor" := Black,
    "IC" := Gray,
    "Connector" := WhiteSmoke,
    "LED" := Yellow,
    "CrystalOscillator" := LightBlue,
    "Switch" := Brown,
    "Socket" := LightGreen,
    "Varistor" := Cyan,
    "Harness" := Pink]

  /** The colour a component box is filled with: its table entry, or LightGray. */
  function ComponentColor(kind: string): Color {
    if kind in ColorTable then ColorTable[kind] else LightGray
  }

  /** A material as the renderer holds it. `Solid` is a diffuse colour with an
      optional specular power (None: the toolkit's default). `Overlay(m)` is `m`
      composited with the animated white emissive layer of a highlight.
      `Fallback` is the plain LightGray material a highlight stop applies when
      no original was recorded. */
  datatype Material =
    | Solid(color: Color, specularPower: Option<nat>)
    | Overlay(original: Material)
    | Fallback

  /** The slab's material: ForestGreen, specular power 300. */
  const SlabMaterial := Solid(PcbColor, Some(300))

  /** The material every component box is created with: its type's colour, specular power 200. */
  function ComponentMaterial(c: Component): Material {
    Solid(ComponentColor(c.kind), Some(200))
  }

  /** A point or a vector in scene coordinates (millimetres). */
  datatype Point = Point(x: real, y: real, z: real)

  /** A mesh as the builder is asked for it: an axis-aligned box by centre and
      extents, or a cylinder between two points. */
  datatype Shape =
    | Box(center: Point, width: real, height: real, thickness: real)
    | Cylinder(from: Point, to: Point, diameter: real, thetaDiv: nat)

  /** The shape and the current material of one geometry model. */
  datatype Geometry = Geometry(shape: Shape, material: Material)

  datatype Light =
    | Ambient(color: Color)
    | Directional(color: Color, direction: Point)

  /** A child of the viewport: a light, or a visual holding the geometry with
      the given identity (its index in the window's geometry arena). */
  datatype Visual = LightVisual(light: Light) | ModelVisual(geometry: nat)

  /** The three lights every full build adds first: gray ambient, and white
      light from above and from below. */
  function Lights(): seq<Visual> {
    [LightVisual(Ambient(Gray)),
     LightVisual(Directional(White, Point(-1.0, -1.0, -1.0))),
     LightVisual(Directional(White, Point(1.0, 1.0, 1.0)))]
  }

  const Origin := Point(0.0, 0.0, 0.0)

  /** The X, Y and Z axes: cylinders of length 100 and diameter 1 from the
      origin, coloured red, green and blue. */
  function AxisGeometries(): seq<Geometry> {
    [Geometry(Cylinder(Origin, Point(100.0, 0.0, 0.0), 1.0, 10), Solid(Red, None)),
     Geometry(Cylinder(Origin, Point(0.0, 100.0, 0.0), 1.0, 10), Solid(Green, None)),
     Geometry(Cylinder(Origin, Point(0.0, 0.0, 100.0), 1.0, 10), Solid(Blue, None))]
  }

  /** The board slab: a box of the board's size whose corner sits at the origin. */
  function SlabGeometry(d: Dimensions): (g: Geometry)
    ensures g.shape.Box? && g.material == SlabMaterial
    ensures var b := g.shape;
      && b.center.x - b.width / 2.0 == 0.0 && b.center.x + b.width / 2.0 == d.width
      && b.center.y - b.height / 2.0 == 0.0 && b.center.y + b.height / 2.0 == d.height
      && b.center.z - b.thickness / 2.0 == 0.0 && b.center.z + b.thickness / 2.0 == d.thickness
  {
    Geometry(Box(Point(d.width / 2.0, d.height / 2.0, d.thickness / 2.0), d.width, d.height, d.thickness),
             SlabMaterial)
  }

  /** The z at which a component is placed: its own z on the top face,
      mirrored below the board otherwise. */
  function ZPosition(c: Component, isTopFace: bool): real {
    if isTopFace then c.z else -c.z
  }

  /** The geometry the full build creates for a component. */
  function ComponentGeometry(c: Component, isTopFace: bool): Geometry {
    Geometry(Box(Point(c.x, c.y, ZPosition(c, isTopFace)),
                 c.dimensions.width, c.dimensions.height, c.dimensions.thickness),
             ComponentMaterial(c))
  }

  /** The geometry the offset re-layout creates for a component: shifted by
      the offset, with no face rule. */
  function OffsetGeometry(c: Component, dx: real, dy: real, dz: real): Geometry {
    Geometry(Box(Point(c.x + dx, c.y + dy, c.z + dz),
                 c.dimensions.width, c.dimensions.height, c.dimensions.thickness),
             ComponentMaterial(c))
  }

  /** The components the full build draws, in document order. */
  function Mounted(cs: seq<Component>): seq<Component>
    decreases |cs|
  {
    if cs == [] then []
    else Mounted(cs[..|cs| - 1]) + (if IsMounted(cs[|cs| - 1]) then [cs[|cs| - 1]] else [])
  }

  /** The geometries the full build creates for its drawn components. */
  function MountedGeometries(ms: seq<Component>): (gs: seq<Geometry>)
    ensures |gs| == |ms|
    decreases |ms|
  {
    if ms == [] then []
    else MountedGeometries(ms[..|ms| - 1]) + [ComponentGeometry(ms[|ms| - 1], ms[|ms| - 1].face == TopFace)]
  }

  /** The geometries the offset re-layout creates, one per component. */
  function OffsetGeometries(cs: seq<Component>, dx: real, dy: real, dz: real): (gs: seq<Geometry>)
    ensures |gs| == |cs|
    decreases |cs|
  {
    if cs == [] then []
    else OffsetGeometries(cs[..|cs| - 1], dx, dy, dz) + [OffsetGeometry(cs[|cs| - 1], dx, dy, dz)]
  }

  /** Visuals for the `n` consecutive geometries starting at identity `first`. */
  function VisualRange(first: nat, n: nat): (vs: seq<Visual>)
    ensures |vs| == n
    ensures forall k :: 0 <= k < n ==> vs[k] == ModelVisual(first + k)
    decreases n
  {
    if n == 0 then [] else VisualRange(first, n - 1) + [ModelVisual(first + n - 1)]
  }

  // ---------------------------------------------------------------------------
  // The viewport list operations of the offset re-layout
  // ---------------------------------------------------------------------------

  /** Whether a viewport child holds a geometry that has an info entry. */
  predicate Registered(v: Visual, registry: set<nat>) {
    v.ModelVisual? && v.geometry in registry
  }

  /** The children that hold registered geometries, in list order. */
  function RegisteredOf(cs: seq<Visual>, registry: set<nat>): (r: seq<Visual>)
    ensures forall i :: 0 <= i < |r| ==> Registered(r[i], registry)
    ensures |r| <= |cs|
  {
    if cs == [] then []
    else if Registered(cs[0], registry) then [cs[0]] + RegisteredOf(cs[1..], registry)
    else RegisteredOf(cs[1..], registry)
  }

  /** The children that do not hold registered geometries, in list order. */
  function UnregisteredOf(cs: seq<Visual>, registry: set<nat>): (r: seq<Visual>)
    ensures forall i :: 0 <= i < |r| ==> !Registered(r[i], registry)
  {
    if cs == [] then []
    else if Registered(cs[0], registry) then UnregisteredOf(cs[1..], registry)
    else [cs[0]] + UnregisteredOf(cs[1..], registry)
  }

  /** `List.Remove`: drops the first occurrence of `v`, if any. */
  function RemoveFirst<T(==)>(s: seq<T>, v: T): seq<T> {
    if s == [] then []
    else if s[0] == v then s[1..]
    else [s[0]] + RemoveFirst(s[1..], v)
  }

  /** The children with their first `k` registered children taken out. */
  function WithoutFirstRegistered(cs: seq<Visual>, registry: set<nat>, k: nat): seq<Visual> {
    if cs == [] then []
    else if Registered(cs[0], registry) && k > 0 then WithoutFirstRegistered(cs[1..], registry, k - 1)
    else [cs[0]] + WithoutFirstRegistered(cs[1..], registry, k)
  }

  // ---------------------------------------------------------------------------
  // Camera framing
  // ---------------------------------------------------------------------------

  /** The perspective camera settings the viewer writes. */
  datatype Pose = Pose(position: Point, look: Point, up: Point, fieldOfView: real)

  /** The viewport's camera: a perspective camera with its pose, or another kind. */
  datatype Camera = Perspective(pose: Pose) | OtherCamera

  function Max(a: real, b: real): real {
    if a >= b then a else b
  }

  /** The seed pose that frames a board: above the board's centre at twice its
      larger side, looking straight down the z axis, y up, 45 degrees. */
  function FramingPose(d: Dimensions): Pose {
    var distance := Max(d.width, d.height) * 2.0;
    Pose(Point(d.width / 2.0, d.height / 2.0, distance), Point(0.0, 0.0, -distance),
         Point(0.0, 1.0, 0.0), 45.0)
  }

  // ---------------------------------------------------------------------------
  // Lemmas
  // ---------------------------------------------------------------------------

  /** A box is LightGray exactly when its type is not in the table: no table
      entry is LightGray, and the lookup never fails. */
  lemma ComponentColorFallsBackExactlyOffTable(kind: string)
    ensures ComponentColor(kind) == LightGray <==> kind !in ColorTable
    ensures kind in ColorTable ==> ComponentColor(kind) == ColorTable[kind]
  {
    if kind in ColorTable {
      assert ColorTable[kind] in ColorTable.Values;
      assert LightGray !in ColorTable.Values;
    }
  }

  /** Both build paths give a component the same material. */
  lemma BothPathsShareColor(c: Component, isTopFace: bool, dx: real, dy: real, dz: real)
    ensures ComponentGeometry(c, isTopFace).material == OffsetGeometry(c, dx, dy, dz).material
    ensures ComponentGeometry(c, isTopFace).material == Solid(ComponentColor(c.kind), Some(200))
  {
  }

  /** The full build's box sits at the component's x and y, at +z on the top
      face and at -z on the bottom face, with the component's own size. */
  lemma FaceRule(c: Component)
    requires IsMounted(c)
    ensures var b := ComponentGeometry(c, c.face == TopFace).shape;
      && b.Box? && b.center.x == c.x && b.center.y == c.y
      && (c.face == TopFace ==> b.center.z == c.z)
      && (c.face == BottomFace ==> b.center.z == -c.z)
      && (b.width, b.height, b.thickness) == (c.dimensions.width, c.dimensions.height, c.dimensions.thickness)
  {
  }

  /** Filtering distributes over concatenation. */
  lemma {:induction false} MountedAppend(a: seq<Component>, b: seq<Component>)
    ensures Mounted(a + b) == Mounted(a) + Mounted(b)
    decreases |b|
  {
    if b == [] {
      assert a + b == a;
    } else {
      var b' := b[..|b| - 1];
      MountedAppend(a, b');
      assert (a + b)[..|a + b| - 1] == a + b';
      assert (a + b)[|a + b| - 1] == b[|b| - 1];
    }
  }

  /** A component is drawn exactly when it is in the list and its face is
      exactly "Top" or "Bottom". */
  lemma {:induction false} MountedMembers(cs: seq<Component>, c: Component)
    ensures c in Mounted(cs) <==> c in cs && IsMounted(c)
    decreases |cs|
  {
    if cs != [] {
      var init := cs[..|cs| - 1];
      MountedMembers(init, c);
      assert cs == init + [cs[|cs| - 1]];
    }
  }

  /** Every component is drawn when every face is "Top" or "Bottom", and no
      component is drawn when none is. */
  lemma {:induction false} MountedExtremes(cs: seq<Component>)
    ensures (forall i :: 0 <= i < |cs| ==> IsMounted(cs[i])) ==> Mounted(cs) == cs
    ensures (forall i :: 0 <= i < |cs| ==> !IsMounted(cs[i])) ==> Mounted(cs) == []
    decreases |cs|
  {
    if cs != [] {
      var init := cs[..|cs| - 1];
      MountedExtremes(init);
      assert cs == init + [cs[|cs| - 1]];
    }
  }

  /** Removing nothing leaves the list as it is. */
  lemma {:induction false} WithoutNoneRegistered(cs: seq<Visual>, registry: set<nat>)
    ensures WithoutFirstRegistered(cs, registry, 0) == cs
    decreases |cs|
  {
    if cs != [] {
      WithoutNoneRegistered(cs[1..], registry);
    }
  }

  /** Removing the k-th registered child from a list that has lost the first k
      takes out exactly the next one. */
  lemma {:induction false} RemoveNextRegistered(cs: seq<Visual>, registry: set<nat>, k: nat)
    requires k < |RegisteredOf(cs, registry)|
    ensures RemoveFirst(WithoutFirstRegistered(cs, registry, k), RegisteredOf(cs, registry)[k])
         == WithoutFirstRegistered(cs, registry, k + 1)
    decreases |cs|
  {
    var rest := cs[1..];
    if Registered(cs[0], registry) {
      if k == 0 {
        WithoutNoneRegistered(cs, registry);
        WithoutNoneRegistered(rest, registry);
      } else {
        RemoveNextRegistered(rest, registry, k - 1);
      }
    } else {
      RemoveNextRegistered(rest, registry, k);
      var target := RegisteredOf(cs, registry)[k];
      assert Registered(target, registry);
      assert cs[0] != target;
    }
  }

  /** With every registered child taken out, exactly the unregistered ones remain, in order. */
  lemma {:induction false} WithoutAllRegistered(cs: seq<Visual>, registry: set<nat>)
    ensures WithoutFirstRegistered(cs, registry, |RegisteredOf(cs, registry)|) == UnregisteredOf(cs, registry)
    decreases |cs|
  {
    if cs != [] {
      WithoutAllRegistered(cs[1..], registry);
    }
  }

  /** The camera looks straight down the board's normal, from twice the larger
      side, and its line of sight ends at the centre of the board's underside. */
  lemma FramingPoseAimsAtBoard(d: Dimensions)
    ensures var p := FramingPose(d);
      && p.position.z == 2.0 * Max(d.width, d.height)
      && p.position.z >= 2.0 * d.width && p.position.z >= 2.0 * d.height
      && p.look.x == 0.0 && p.look.y == 0.0
      && Point(p.position.x + p.look.x, p.position.y + p.look.y, p.position.z + p.look.z)
         == Point(d.width / 2.0, d.height / 2.0, 0.0)
      && p.up == Point(0.0, 1.0, 0.0) && p.fieldOfView == 45.0
  {
  }

  /** A 100 by 60 board seeds the camera at distance 200. */
  lemma FramingPoseExample()
    ensures FramingPose(Dimensions(100.0, 60.0, 2.0)).position == Point(50.0, 30.0, 200.0)
    ensures FramingPose(Dimensions(100.0, 60.0, 2.0)).look == Point(0.0, 0.0, -200.0)
  {
  }
}
