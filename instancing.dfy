/** The instanced mesh a cube list draws through, seen from outside: it is
    bound to one geometry and one material, remembers the instance count it
    was created with and the arguments of its most recent `set`, and can be
    released. */
module Instancing {
  import opened Wrappers
  import opened Ros
  import opened Materials
  import opened SharedGeometryCache

  /** The arguments of one `set` call. */
  datatype SetArgs = SetArgs(points: seq<Vector3>, scale: Vector3, colors: seq<ColorRGBA>, color: ColorRGBA)

  class DynamicInstancedMesh {
    const geometry: BufferGeometry
    const material: Material
    const initialCount: nat
    var lastSet: Option<SetArgs>
    var released: bool

    constructor (geometry: BufferGeometry, material: Material, initialCount: nat)
      ensures this.geometry == geometry && this.material == material
      ensures this.initialCount == initialCount
      ensures lastSet == None && !released
    {
      this.geometry := geometry;
      this.material := material;
      this.initialCount := initialCount;
      lastSet := None;
      released := false;
    }

    method Set(points: seq<Vector3>, scale: Vector3, colors: seq<ColorRGBA>, color: ColorRGBA)
      modifies this
      ensures lastSet == Some(SetArgs(points, scale, colors, color))
      ensures released == old(released)
    {
      lastSet := Some(SetArgs(points, scale, colors, color));
    }
  }

  /** Releases the GPU resources of `mesh`. */
  method DisposeMeshesRecursive(mesh: DynamicInstancedMesh)
    modifies mesh
    ensures mesh.released
    ensures mesh.lastSet == old(mesh.lastSet)
  {
    mesh.released := true;
  }
}
