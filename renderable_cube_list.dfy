/** A CUBE_LIST marker rendered as one instanced mesh of shared cubes. The
    fields and steps of the RenderableMarker base class that the cube list
    relies on (the stored marker and receive time, its update and dispose)
    are folded into the class. */
module CubeList {
  import opened Wrappers
  import opened Ros
  import opened Materials
  import opened SharedGeometryCache
  import opened Instancing
  import opened CubeListEffects

  /** The cache key every cube list asks the shared geometry for. */
  const CubeGeometryKey: string := "RenderableCube"

  class RenderableCubeList {
    const topic: string
    /** The transparency predicate on markers used by every update. */
    const hasTransparency: Marker -> bool
    /** The marker stored by the base class (userData.marker). */
    var marker: Marker
    /** The receive time stored by the base class. */
    var receiveTime: Option<int>
    const mesh: DynamicInstancedMesh
    /** What this renderable has done to its material and mesh so far. */
    ghost var effects: seq<Effect>

    /** The material's transparency flags agree with the stored marker. */
    ghost predicate MaterialInStep()
      reads this, mesh, mesh.material
    {
      InStep(mesh.material.State(), hasTransparency(marker))
    }

    constructor (topic: string, marker: Marker, receiveTime: Option<int>, renderer: Renderer, hasTransparency: Marker -> bool)
      modifies renderer.sharedGeometry
      ensures this.topic == topic && this.hasTransparency == hasTransparency
      ensures this.marker == marker && this.receiveTime == receiveTime
      ensures fresh(mesh) && fresh(mesh.material)
      ensures mesh.initialCount == |marker.points|
      ensures CubeGeometryKey in renderer.sharedGeometry.entries
      ensures mesh.geometry == renderer.sharedGeometry.entries[CubeGeometryKey]
      ensures CubeGeometryKey in old(renderer.sharedGeometry.entries) ==>
                renderer.sharedGeometry.entries == old(renderer.sharedGeometry.entries)
      ensures CubeGeometryKey !in old(renderer.sharedGeometry.entries) ==>
                fresh(mesh.geometry) &&
                renderer.sharedGeometry.entries == old(renderer.sharedGeometry.entries)[CubeGeometryKey := mesh.geometry]
      ensures mesh.material.State() == MaterialState(hasTransparency(marker), !hasTransparency(marker), false)
      ensures MaterialInStep()
      ensures mesh.lastSet == Some(SetArgsOf(marker)) && !mesh.released
      ensures effects == [MeshSet(SetArgsOf(marker))]
    {
      // base constructor
      this.topic := topic;
      this.hasTransparency := hasTransparency;
      this.marker := marker;
      this.receiveTime := receiveTime;
      var material := MakeStandardInstancedMaterial(marker, hasTransparency);
      var geometry := renderer.sharedGeometry.GetGeometry(CubeGeometryKey);
      this.mesh := new DynamicInstancedMesh(geometry, material, |marker.points|);
      this.effects := [];
      new;
      Update(marker, receiveTime);
    }

    /** Releases the owned mesh, then runs the base class's disposal. The
        shared geometry entry is left in the cache. */
    method Dispose()
      modifies this, mesh
      ensures mesh.released && mesh.lastSet == old(mesh.lastSet)
      ensures marker == old(marker) && receiveTime == old(receiveTime)
      ensures effects == old(effects) + [MeshDisposed, BaseDisposed]
    {
      DisposeMeshesRecursive(mesh);
      effects := effects + [MeshDisposed];
      BaseDispose();
    }

    /** Applies `newMarker`: the base class stores it, the material flags are
        rewritten only when its transparency differs from that of the marker
        stored before the call, and its points, scale and colours always go
        to the mesh. */
    method Update(newMarker: Marker, receiveTime: Option<int>)
      modifies this, mesh, mesh.material
      ensures mesh.released == old(mesh.released)
      ensures marker == newMarker && this.receiveTime == receiveTime
      ensures hasTransparency(newMarker) != hasTransparency(old(marker)) ==>
                mesh.material.transparent == hasTransparency(newMarker) &&
                mesh.material.depthWrite == !mesh.material.transparent &&
                mesh.material.needsUpdate
      ensures hasTransparency(newMarker) == hasTransparency(old(marker)) ==> unchanged(mesh.material)
      ensures mesh.lastSet == Some(SetArgsOf(newMarker))
      ensures old(MaterialInStep()) ==> MaterialInStep()
      ensures effects == old(effects) + UpdateEffects(hasTransparency, old(marker), newMarker)
      ensures mesh.material.State() == ApplyMaterial(old(mesh.material.State()), UpdateEffects(hasTransparency, old(marker), newMarker))
    {
      var prevMarker := marker;
      BaseUpdate(newMarker, receiveTime);
      var m := marker;

      var transparent := hasTransparency(m);
      if transparent != hasTransparency(prevMarker) {
        mesh.material.transparent := transparent;
        mesh.material.depthWrite := !transparent;
        mesh.material.needsUpdate := true;
        effects := effects + [MaterialWrite(transparent)];
      }

      mesh.Set(m.points, m.scale, m.colors, m.color);
      effects := effects + [MeshSet(SetArgsOf(m))];
      UpdateMaterialOutcome(hasTransparency, old(mesh.material.State()), prevMarker, newMarker);
    }

    /** The base class's update: stores the marker and its receive time. */
    method BaseUpdate(newMarker: Marker, receiveTime: Option<int>)
      modifies this`marker, this`receiveTime
      ensures marker == newMarker && this.receiveTime == receiveTime
    {
      marker := newMarker;
      this.receiveTime := receiveTime;
    }

    /** The base class's disposal. */
    method BaseDispose()
      modifies this`effects
      ensures effects == old(effects) + [BaseDisposed]
    {
      effects := effects + [BaseDisposed];
    }
  }

  /** Two cube lists built on one renderer draw the same geometry object, and
      the cache gains at most that one entry. */
  method TwoCubeListsShareGeometry(renderer: Renderer, first: Marker, second: Marker, hasTransparency: Marker -> bool)
    returns (a: RenderableCubeList, b: RenderableCubeList)
    modifies renderer.sharedGeometry
    ensures a.mesh.geometry == b.mesh.geometry
    ensures CubeGeometryKey in renderer.sharedGeometry.entries
    ensures a.mesh.geometry == renderer.sharedGeometry.entries[CubeGeometryKey]
    ensures a.mesh != b.mesh && a.mesh.material != b.mesh.material
    ensures CubeGeometryKey in old(renderer.sharedGeometry.entries) ==>
              renderer.sharedGeometry.entries == old(renderer.sharedGeometry.entries)
    ensures CubeGeometryKey !in old(renderer.sharedGeometry.entries) ==>
              renderer.sharedGeometry.entries == old(renderer.sharedGeometry.entries)[CubeGeometryKey := a.mesh.geometry]
  {
    a := new RenderableCubeList("/markers_a", first, None, renderer, hasTransparency);
    b := new RenderableCubeList("/markers_b", second, None, renderer, hasTransparency);
  }

  /** Built opaque, then updated with the same marker, a transparent one and
      the opaque one again: the material is written exactly twice and ends
      opaque, and every update's marker reached the mesh. */
  method TransparencyToggle(renderer: Renderer, solid: Marker, clear: Marker, hasTransparency: Marker -> bool)
    returns (list: RenderableCubeList)
    requires !hasTransparency(solid) && hasTransparency(clear)
    modifies renderer.sharedGeometry
    ensures !list.mesh.material.transparent && list.mesh.material.depthWrite
    ensures MaterialWrites(list.effects) == 2
    ensures MeshSets(list.effects) == [SetArgsOf(solid), SetArgsOf(solid), SetArgsOf(clear), SetArgsOf(solid)]
    ensures CubeGeometryKey in old(renderer.sharedGeometry.entries) ==>
              renderer.sharedGeometry.entries == old(renderer.sharedGeometry.entries)
    ensures CubeGeometryKey !in old(renderer.sharedGeometry.entries) ==>
              renderer.sharedGeometry.entries == old(renderer.sharedGeometry.entries)[CubeGeometryKey := list.mesh.geometry]
  {
    list := new RenderableCubeList("/markers", solid, None, renderer, hasTransparency);
    ghost var built := list.effects;
    ghost var builtState := list.mesh.material.State();
    UpdateAll(list, [solid, clear, solid], None);
    var run := Run(hasTransparency, solid, [solid, clear, solid]);
    MaterialWritesAppend(built, run);
    MeshSetsAppend(built, run);
    RunCons(hasTransparency, solid, [solid, clear, solid]);
    assert [solid, clear, solid][1..] == [clear, solid];
    ReapplyingIsQuiet(hasTransparency, solid);
    MaterialWritesAppend(UpdateEffects(hasTransparency, solid, solid), Run(hasTransparency, solid, [clear, solid]));
    // only the write count of the last two updates is used here
    OpaqueTransparentOpaque(hasTransparency, builtState, solid, clear, solid);
    RunForwardsEveryMarker(hasTransparency, solid, [solid, clear, solid]);
  }

  /** Applies `updates` in order, all with the same receive time: the trace
      grows by exactly `Run` of them, so every property proved of `Run` holds
      of the cube list, whatever the number of updates. */
  method UpdateAll(list: RenderableCubeList, updates: seq<Marker>, receiveTime: Option<int>)
    modifies list, list.mesh, list.mesh.material
    ensures list.mesh.released == old(list.mesh.released)
    ensures updates != [] ==> list.receiveTime == receiveTime
    ensures updates == [] ==> list.receiveTime == old(list.receiveTime) && list.mesh.lastSet == old(list.mesh.lastSet)
    ensures list.marker == Last(old(list.marker), updates)
    ensures list.effects == old(list.effects) + Run(list.hasTransparency, old(list.marker), updates)
    ensures list.mesh.material.State()
         == ApplyMaterial(old(list.mesh.material.State()), Run(list.hasTransparency, old(list.marker), updates))
    ensures updates != [] ==> list.mesh.lastSet == Some(SetArgsOf(updates[|updates| - 1]))
    ensures old(list.MaterialInStep()) ==> list.MaterialInStep()
  {
    ghost var stored := list.marker;
    ghost var state := list.mesh.material.State();
    var i := 0;
    while i < |updates|
      invariant 0 <= i <= |updates|
      invariant list.mesh.released == old(list.mesh.released)
      invariant i > 0 ==> list.receiveTime == receiveTime
      invariant i == 0 ==> list.receiveTime == old(list.receiveTime) && list.mesh.lastSet == old(list.mesh.lastSet)
      invariant list.marker == Last(stored, updates[..i])
      invariant list.effects == old(list.effects) + Run(list.hasTransparency, stored, updates[..i])
      invariant list.mesh.material.State() == ApplyMaterial(state, Run(list.hasTransparency, stored, updates[..i]))
      invariant i > 0 ==> list.mesh.lastSet == Some(SetArgsOf(updates[i - 1]))
      invariant old(list.MaterialInStep()) ==> list.MaterialInStep()
    {
      assert updates[..i + 1] == updates[..i] + [updates[i]];
      RunSnoc(list.hasTransparency, stored, updates[..i], updates[i]);
      ApplyMaterialAppend(state, Run(list.hasTransparency, stored, updates[..i]),
                          UpdateEffects(list.hasTransparency, list.marker, updates[i]));
      list.Update(updates[i], receiveTime);
      i := i + 1;
    }
    assert updates[..|updates|] == updates;
  }
}
