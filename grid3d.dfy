/** The scene manager: it owns the scene (as the set of objects in it), the
    lattice point cloud, and the list of cubes, used as a stack. */
module Grid {
  import opened Types
  import opened JsDefaults
  import opened Lattice
  import opened Cube

  /** Dot size of the lattice when the caller gives none, or gives 0. */
  const DefaultDotSize: real := 0.1
  /** Lattice colour when the caller gives none, or gives "". */
  const DefaultGridColor: string := "#000000"
  /** Scene background when the caller gives none, or gives "". */
  const DefaultBackgroundColor: string := "#ffffff"

  /** The point cloud that draws the lattice: `positions` read three numbers
      per point, one colour, one dot size. */
  class GridPoints {
    const positions: seq<int>
    const color: string
    const size: real

    constructor (positions: seq<int>, color: string, size: real)
      ensures this.positions == positions && this.color == color && this.size == size
    {
      this.positions := positions;
      this.color := color;
      this.size := size;
    }
  }

  /** The objects a list of cubes contributes to the scene: each cube's mesh
      and its edge outline. */
  ghost function CubeObjects(cubes: seq<Cube3D>): set<object> {
    (set c | c in cubes :: c.mesh as object) + (set c | c in cubes :: c.edges as object)
  }

  class Grid3D {
    const options: Grid3DOptions
    var background: string
    var scene: set<object>
    var grid: GridPoints?
    var cubes: seq<Cube3D>

    /** The scene holds the lattice and the two objects of every cube in the
        list, and nothing else; no two cubes share a mesh or an outline. */
    ghost predicate Valid()
      reads this
    {
      && grid != null
      && scene == {grid as object} + CubeObjects(cubes)
      && (forall i, j :: 0 <= i < j < |cubes| ==>
            cubes[i].mesh != cubes[j].mesh && cubes[i].edges != cubes[j].edges)
    }

    /** Sets the background (`backgroundColor || '#ffffff'`), starts with no
        cubes and builds the lattice. */
    constructor (options: Grid3DOptions)
      ensures Valid()
      ensures this.options == options && cubes == []
      ensures background == OrString(options.backgroundColor, DefaultBackgroundColor)
      ensures fresh(grid) && scene == {grid as object}
      ensures grid.positions == Flatten(Points(options.dimensions))
      ensures grid.color == OrString(options.gridColor, DefaultGridColor)
      ensures grid.size == OrNumber(options.dotSize, DefaultDotSize)
    {
      this.options := options;
      background := OrString(options.backgroundColor, DefaultBackgroundColor);
      scene := {};
      grid := null;
      cubes := [];
      new;
      CreateGrid();
    }

    /** Computes the lattice positions, wraps them in a point cloud with
        `dotSize || 0.1` and `gridColor || '#000000'`, and adds it to the scene. */
    method CreateGrid()
      modifies this
      ensures fresh(grid) && scene == old(scene) + {grid as object}
      ensures grid.positions == Flatten(Points(options.dimensions))
      ensures grid.color == OrString(options.gridColor, DefaultGridColor)
      ensures grid.size == OrNumber(options.dotSize, DefaultDotSize)
      ensures cubes == old(cubes) && background == old(background)
    {
      var positions := GridPositions(options.dimensions);
      var dotSize := OrNumber(options.dotSize, DefaultDotSize);
      var points := new GridPoints(positions, OrString(options.gridColor, DefaultGridColor), dotSize);
      grid := points;
      scene := scene + {points as object};
    }

    /** Pushes a new cube built from `properties` and adds its mesh and
        outline to the scene. Earlier cubes keep their order and their state. */
    method AddCube(properties: CubeProperties)
      requires Valid()
      modifies this
      ensures Valid()
      ensures |cubes| == |old(cubes)| + 1 && cubes[..|old(cubes)|] == old(cubes)
      ensures var c := cubes[|cubes| - 1];
        && fresh(c) && fresh(c.mesh) && fresh(c.edges) && c.properties == properties
        && c.Valid() && c.mesh.position == properties.position
        && c.mesh.color == properties.color && c.mesh.transparent
        && c.edges.lineWidth == EdgeLineWidth
        && c.mesh.opacity == OrNumber(properties.opacity, DefaultOpacity)
        && c.edges.color == OrString(properties.edgeColor, DefaultEdgeColor)
        && scene == old(scene) + {c.mesh as object, c.edges as object}
      ensures forall i :: 0 <= i < |old(cubes)| ==> cubes[i].State() == old(cubes[i].State())
      ensures grid == old(grid) && background == old(background)
    {
      var cube := new Cube3D(properties);
      cubes := cubes + [cube];
      scene := scene + {cube.GetMesh() as object};
      scene := scene + {cube.GetEdges() as object};
    }

    /** Pops the last cube, if any, and takes its mesh and outline out of the
        scene. On an empty list nothing happens. */
    method RemoveLastCube()
      requires Valid()
      modifies this
      ensures Valid()
      ensures old(cubes) == [] ==> cubes == [] && scene == old(scene)
      ensures old(cubes) != [] ==>
        var c := old(cubes)[|old(cubes)| - 1];
        && cubes == old(cubes)[..|old(cubes)| - 1]
        && scene == old(scene) - {c.mesh as object, c.edges as object}
      ensures forall i :: 0 <= i < |cubes| ==> cubes[i].State() == old(cubes[i].State())
      ensures grid == old(grid) && background == old(background)
    {
      if |cubes| > 0 {
        var cube := cubes[|cubes| - 1];
        cubes := cubes[..|cubes| - 1];
        scene := scene - {cube.GetMesh() as object};
        scene := scene - {cube.GetEdges() as object};
      }
    }
  }

  /** Adding a cube and then removing the last one gives back the list and
      the scene as they were. */
  method AddThenRemoveRestores(g: Grid3D, properties: CubeProperties)
    requires g.Valid()
    modifies g
    ensures g.Valid()
    ensures g.cubes == old(g.cubes) && g.scene == old(g.scene)
  {
    g.AddCube(properties);
    g.RemoveLastCube();
  }
}
