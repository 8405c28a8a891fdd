/** The board description that a parsed PCB document yields: a board, its
    dimensions and its ordered list of mounted components. Every field is a
    plain value; the `float` fields of the document are modelled as `real`. */
module PcbModel {

  /** Width, height and thickness in millimetres. One triple type serves both
      the board and each component. */
  datatype Dimensions = Dimensions(width: real, height: real, thickness: real)

  /** One mounted part. `kind` is the document's `Type`: a free-form category.
      `face` is free-form too: "Top" and "Bottom" are the values the viewer
      acts on, and any other string is admitted. `rotation` is whole degrees
      and is only ever displayed. */
  datatype Component = Component(
    location: string,
    kind: string,
    x: real,
    y: real,
    z: real,
    rotation: int,
    face: string,
    kdtecPN: string,
    customerPN: string,
    makerPN: string,
    description: string,
    makerName: string,
    process: string,
    dimensions: Dimensions)

  /** A board: its name, its dimensions and its components, in document order. */
  datatype Board = Board(name: string, dimensions: Dimensions, components: seq<Component>)

  const TopFace := "Top"
  const BottomFace := "Bottom"

  /** The faces the full scene build draws: exactly "Top" or exactly "Bottom". */
  predicate IsMounted(c: Component) {
    c.face == TopFace || c.face == BottomFace
  }
}
