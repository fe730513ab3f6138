/** The instanced standard material of a cube list, reduced to the three flags
    that depend on transparency. */
module Materials {
  import opened Ros

  /** The value of a material's transparency-dependent flags. */
  datatype MaterialState = MaterialState(transparent: bool, depthWrite: bool, needsUpdate: bool)

  class Material {
    var transparent: bool
    var depthWrite: bool
    var needsUpdate: bool

    function State(): MaterialState
      reads this
    {
      MaterialState(transparent, depthWrite, needsUpdate)
    }

    constructor (transparent: bool, depthWrite: bool)
      ensures State() == MaterialState(transparent, depthWrite, false)
    {
      this.transparent := transparent;
      this.depthWrite := depthWrite;
      this.needsUpdate := false;
    }
  }

  /** The material factory: a new material whose transparency follows the
      marker it is made for, writing depth only when opaque.
      `hasTransparency` stands for the factory's transparency predicate. */
  method MakeStandardInstancedMaterial(marker: Marker, hasTransparency: Marker -> bool)
    returns (material: Material)
    ensures fresh(material)
    ensures material.transparent == hasTransparency(marker)
    ensures material.depthWrite == !material.transparent
    ensures !material.needsUpdate
  {
    var transparent := hasTransparency(marker);
    material := new Material(transparent, !transparent);
  }
}
