/** One translucent unit cube: a solid mesh and an edge outline that sit at the
    same coordinate. The graphics objects are reduced to the attributes the
    cube sets: position, colour and opacity. */
module Cube {
  import opened Types
  import opened JsDefaults

  /** Opacity when the caller gives none, or gives 0. */
  const DefaultOpacity: real := 0.6
  /** Edge colour when the caller gives none, or gives "". */
  const DefaultEdgeColor: string := "#000000"
  /** Line width of the edge outline. */
  const EdgeLineWidth: int := 2

  /** The solid part: a unit box with a transparent Phong material. */
  class Mesh {
    var position: Vec3
    var color: string
    var opacity: real
    const transparent: bool

    /** A new mesh sits at the origin until it is moved. */
    constructor (color: string, opacity: real)
      ensures position == Vec3(0, 0, 0)
      ensures this.color == color && this.opacity == opacity && transparent
    {
      position := Vec3(0, 0, 0);
      this.color := color;
      this.opacity := opacity;
      transparent := true;
    }
  }

  /** The wire outline of the same box. Its colour is fixed at creation. */
  class EdgeOutline {
    var position: Vec3
    const color: string
    const lineWidth: int

    constructor (color: string, lineWidth: int)
      ensures position == Vec3(0, 0, 0)
      ensures this.color == color && this.lineWidth == lineWidth
    {
      position := Vec3(0, 0, 0);
      this.color := color;
      this.lineWidth := lineWidth;
    }
  }

  /** Everything a cube shows, read off its two graphics objects. */
  datatype CubeState = CubeState(
    meshPosition: Vec3,
    color: string,
    opacity: real,
    edgesPosition: Vec3,
    edgeColor: string)

  class Cube3D {
    const properties: CubeProperties
    const mesh: Mesh
    const edges: EdgeOutline

    /** The outline and the solid never drift apart. */
    ghost predicate Valid()
      reads mesh, edges
    {
      mesh.position == edges.position
    }

    function State(): CubeState
      reads mesh, edges
    {
      CubeState(mesh.position, mesh.color, mesh.opacity, edges.position, edges.color)
    }

    /** Builds the mesh at `properties.position`, with the given colour and
        `properties.opacity || 0.6`, and the outline with
        `properties.edgeColor || '#000000'`, moved onto the mesh's position. */
    constructor (properties: CubeProperties)
      ensures Valid() && fresh(mesh) && fresh(edges)
      ensures this.properties == properties
      ensures mesh.position == properties.position && edges.position == mesh.position
      ensures mesh.color == properties.color && mesh.transparent
      ensures mesh.opacity == OrNumber(properties.opacity, DefaultOpacity)
      ensures edges.color == OrString(properties.edgeColor, DefaultEdgeColor)
      ensures edges.lineWidth == EdgeLineWidth
    {
      this.properties := properties;
      var m := new Mesh(properties.color, OrNumber(properties.opacity, DefaultOpacity));
      m.position := properties.position;
      var e := new EdgeOutline(OrString(properties.edgeColor, DefaultEdgeColor), EdgeLineWidth);
      e.position := m.position;
      mesh := m;
      edges := e;
    }

    /** The cube's one mesh; `mesh` is constant, so every call gives the same object. */
    function GetMesh(): (m: Mesh)
      ensures m == mesh
    {
      mesh
    }

    /** The cube's one outline; `edges` is constant, so every call gives the same object. */
    function GetEdges(): (e: EdgeOutline)
      ensures e == edges
    {
      edges
    }

    /** Moves the solid and the outline together; colours and opacity stay. */
    method SetPosition(x: int, y: int, z: int)
      modifies mesh, edges
      ensures Valid()
      ensures State() == old(State()).(meshPosition := Vec3(x, y, z), edgesPosition := Vec3(x, y, z))
    {
      mesh.position := Vec3(x, y, z);
      edges.position := Vec3(x, y, z);
    }

    /** Recolours the solid only; the outline keeps its colour. */
    method SetColor(color: string)
      modifies mesh
      ensures State() == old(State()).(color := color)
      ensures unchanged(edges)
    {
      mesh.color := color;
    }

    /** Changes the solid's opacity only. */
    method SetOpacity(opacity: real)
      modifies mesh
      ensures State() == old(State()).(opacity := opacity)
      ensures unchanged(edges)
    {
      mesh.opacity := opacity;
    }
  }
}
