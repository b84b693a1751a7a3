/** The value types the components exchange: an optional field, an integer
    coordinate triple, and the option records of the grid and of a cube. */
module Types {

  /** A field that a caller may leave out (TypeScript's `field?: T`). */
  datatype Option<T> = None | Some(value: T)

  /** An integer point in space: a lattice point, or a cube's position. */
  datatype Vec3 = Vec3(x: int, y: int, z: int)

  /** Half-widths of the lattice: x runs over [-xRange, xRange], and so on. */
  datatype GridDimensions = GridDimensions(xRange: int, yRange: int, zRange: int)

  /** What a caller gives to create one cube. */
  datatype CubeProperties = CubeProperties(
    position: Vec3,
    color: string,
    opacity: Option<real>,
    edgeColor: Option<string>)

  /** What a caller gives to create the scene. */
  datatype Grid3DOptions = Grid3DOptions(
    dimensions: GridDimensions,
    gridColor: Option<string>,
    backgroundColor: Option<string>,
    dotSize: Option<real>)
}
