# RenderableCubeList: update and dispose of an instanced cube-list marker

This project models `RenderableCubeList`, the scene node of the 3D panel that draws a
ROS `CUBE_LIST` marker as one instanced mesh. The node is built once per marker
identity and updated in place on every later message for that identity:

- **Construction** asks the renderer's shared geometry cache for the geometry under
  the fixed key `"RenderableCube"`. It makes a fresh instanced material and creates
  a `DynamicInstancedMesh` sized to the marker's point count. It then applies the
  same marker through `update`.
- **Update** reads the stored marker first, then lets the base class store the new
  one. It rewrites the material's `transparent`, `depthWrite` and `needsUpdate`
  flags only when the new marker's transparency differs from the previous one's.
  It always forwards the new marker's points, scale, colours and base colour to
  `mesh.set`.
- **Dispose** releases the mesh first and then runs the base class's disposal.

Files and modules:

- `wrappers.dfy` (`Wrappers`): an `Option` type, for values that may be absent.
- `ros.dfy` (`Ros`): the marker value and its parts.
- `materials.dfy` (`Materials`): the material class (its three transparency
  flags) and the material factory.
- `shared_geometry.dfy` (`SharedGeometryCache`): the key-to-geometry cache and
  the renderer that holds it.
- `instancing.dfy` (`Instancing`): the instanced mesh, seen from outside. It
  records its initial count and the arguments of its last `set`, and can be
  released.
- `cube_list_effects.dfy` (`CubeListEffects`): the effects of one update and of
  a run of updates, as pure functions, with the lemmas about them.
- `renderable_cube_list.dfy` (`CubeList`): the class itself. It has the
  constructor, `Update` and `Dispose`, and the base-class steps they call. It
  also has three client methods that show what callers can conclude.

The class keeps a ghost trace `effects` of what it has done to its material and
mesh. `Update` appends exactly `UpdateEffects(hasTransparency, old marker, new
marker)` to the trace. The client method `UpdateAll` applies any sequence of
markers through `Update`, with one receive time for the whole run, and its trace grows by exactly `Run` of them. So
every lemma about `Run` also holds of a real sequence of `Update` calls, for
any number of updates. The receive time does not affect the effects.

The transparency predicate `markerHasTransparency` is not defined here. It is a
`Marker -> bool` value given to the constructor and kept in a constant field, and
every update uses it. No lemma depends on how it is defined.

## Model

| member | source | states |
|---|---|---|
| `CubeList.RenderableCubeList.constructor` | packages/studio-base/src/panels/ThreeDeeRender/renderables/markers/RenderableCubeList.ts:19-36 | Stores topic, marker and receive time. The mesh and material are fresh. The mesh's initial count is `|marker.points|`. The mesh's geometry is the cache entry under `"RenderableCube"`: the existing entry if there was one, otherwise a fresh one added under that key alone. The material starts in step with the marker. The initial update forwards that marker to `set` and writes nothing to the material. |
| `CubeList.RenderableCubeList.Update` | packages/studio-base/src/panels/ThreeDeeRender/renderables/markers/RenderableCubeList.ts:43-56 | Stores the new marker and receive time. On a transparency change against the marker stored before the call: `transparent == hasTransparency(new)`, `depthWrite == !transparent` and `needsUpdate`. With no change the material is untouched. `set` always gets the new marker's points, scale, colours and colour. A material in step stays in step. The trace grows by exactly `UpdateEffects(old marker, new marker)`. |
| `CubeList.RenderableCubeList.Dispose` | packages/studio-base/src/panels/ThreeDeeRender/renderables/markers/RenderableCubeList.ts:38-41 | The mesh is released. The trace grows by the mesh release followed by the base disposal, in that order. Stored marker and receive time are unchanged. |
| `CubeList.RenderableCubeList.BaseUpdate` | packages/studio-base/src/panels/ThreeDeeRender/renderables/markers/RenderableCubeList.ts:45 | The base class's update replaces the stored marker and receive time with the new ones. |
| `CubeList.RenderableCubeList.BaseDispose` | packages/studio-base/src/panels/ThreeDeeRender/renderables/markers/RenderableCubeList.ts:40 | The base class's disposal is recorded in the trace and touches nothing else. |
| `CubeList.TwoCubeListsShareGeometry` | packages/studio-base/src/panels/ThreeDeeRender/renderables/markers/RenderableCubeList.ts:29 | Two cube lists built on one renderer hold the same geometry object: the cache entry under `"RenderableCube"`. Each has its own mesh and its own material. The cache is unchanged if the key was present. Otherwise it gains that one entry and nothing else. |
| `CubeList.UpdateAll` | packages/studio-base/src/panels/ThreeDeeRender/renderables/markers/RenderableCubeList.ts:43-56 | Applying any sequence of markers through `Update` leaves the last one stored. The trace grows by exactly `Run` of them, and the material flags are `ApplyMaterial` of that run. The mesh's last `set` is the last marker's, and the given receive time is stored. An empty sequence leaves the receive time and the last `set` as they were. A material in step stays in step. |
| `CubeList.TransparencyToggle` | packages/studio-base/src/panels/ThreeDeeRender/renderables/markers/RenderableCubeList.ts:44-55 | Build opaque, re-apply the same marker, go transparent, go opaque again. The material ends opaque and depth-writing. It was written exactly twice. `set` received the four markers in order. The geometry cache gains at most the `"RenderableCube"` entry. |
| `Materials.MakeStandardInstancedMaterial` | packages/studio-base/src/panels/ThreeDeeRender/renderables/markers/RenderableCubeList.ts:28 | A fresh material whose `transparent` is the marker's transparency, with `depthWrite == !transparent` and no pending recompile. |
| `SharedGeometryCache.SharedGeometry.GetGeometry` | packages/studio-base/src/panels/ThreeDeeRender/renderables/markers/RenderableCubeList.ts:29 | A hit returns the cached object and leaves the cache alone. A miss returns a fresh object and adds it under that key only. Either way the key then maps to the returned object. |
| `Instancing.DynamicInstancedMesh.constructor` | packages/studio-base/src/panels/ThreeDeeRender/renderables/markers/RenderableCubeList.ts:30 | The mesh is bound to the given geometry and material, with the given initial count. It has had no `set` yet and is not released. |
| `Instancing.DynamicInstancedMesh.Set` | packages/studio-base/src/panels/ThreeDeeRender/renderables/markers/RenderableCubeList.ts:55 | The mesh records exactly the given points, scale, colours and colour as its last `set`. |
| `Instancing.DisposeMeshesRecursive` | packages/studio-base/src/panels/ThreeDeeRender/renderables/markers/RenderableCubeList.ts:39 | The mesh is released. Its recorded instance data is unchanged. |
| `CubeListEffects.RunSnoc` | packages/studio-base/src/panels/ThreeDeeRender/renderables/markers/RenderableCubeList.ts:44-46 | One more update adds exactly `UpdateEffects` of the marker stored so far and the new one, and leaves the new one stored. |
| `CubeListEffects.UpdateWritesOnlyOnCrossing` | packages/studio-base/src/panels/ThreeDeeRender/renderables/markers/RenderableCubeList.ts:44-55 | One update writes the material once when the new and previous markers differ in transparency, and zero times otherwise. It makes exactly one `set`, with the new marker's arguments. |
| `CubeListEffects.UpdateMaterialOutcome` | packages/studio-base/src/panels/ThreeDeeRender/renderables/markers/RenderableCubeList.ts:48-53 | On a crossing the flags become (new transparency, its negation, `true`) whatever they were. Without one they are left exactly as they were. |
| `CubeListEffects.ReapplyingIsQuiet` | packages/studio-base/src/panels/ThreeDeeRender/renderables/markers/RenderableCubeList.ts:44-53 | Re-applying the stored marker writes nothing to the material and still forwards it to `set`. |
| `CubeListEffects.RunWritesAtMostOncePerUpdate` | packages/studio-base/src/panels/ThreeDeeRender/renderables/markers/RenderableCubeList.ts:48-53 | A run of `n` updates writes the material at most `n` times. |
| `CubeListEffects.RunQuietIffUniform` | packages/studio-base/src/panels/ThreeDeeRender/renderables/markers/RenderableCubeList.ts:48-53 | A run writes the material zero times exactly when every marker in it has the transparency of the marker stored before it. This holds in both directions. |
| `CubeListEffects.RunWriteParity` | packages/studio-base/src/panels/ThreeDeeRender/renderables/markers/RenderableCubeList.ts:48-53 | The number of material writes in a run is even exactly when the last marker has the transparency of the initially stored one. |
| `CubeListEffects.RunForwardsEveryMarker` | packages/studio-base/src/panels/ThreeDeeRender/renderables/markers/RenderableCubeList.ts:44-55 | A run of `n` updates makes exactly `n` `set` calls. The `i`-th carries the `i`-th marker's points, scale, colours and colour. |
| `CubeListEffects.RunKeepsMaterialInStep` | packages/studio-base/src/panels/ThreeDeeRender/renderables/markers/RenderableCubeList.ts:48-53 | Suppose the material starts in step with the stored marker. After any run it is in step with the last marker: `transparent` is that marker's transparency and `depthWrite == !transparent`. `needsUpdate` is set iff it was set before or the run wrote the material. |
| `CubeListEffects.OpaqueTransparentOpaque` | packages/studio-base/src/panels/ThreeDeeRender/renderables/markers/RenderableCubeList.ts:44-53 | Opaque, then transparent, then opaque: exactly two material writes. The flags pass through (transparent, no depth write) and end at (opaque, depth write), with `needsUpdate` set. |

## Left out

- `markerHasTransparency`: `materials.ts` is not part of this model. The predicate is an arbitrary `Marker -> bool` fixed at construction, and no alpha rule is assumed.
- `needsUpdate`: in three.js this is a setter that bumps the material's `version`. Here it is a readable flag that stays true once written. So "`needsUpdate` set" in `CubeListEffects.RunKeepsMaterialInStep` means "written at least once".
- `Materials.MakeStandardInstancedMaterial`: `materials.ts` is not part of this model. The factory is modelled only by its transparency flags: `transparent` follows the same predicate, `depthWrite` is its negation and `needsUpdate` is false. Its other material settings are not modelled. `Update` only promises `old(MaterialInStep()) ==> MaterialInStep()`, so it does not depend on this choice.
- `Instancing.DynamicInstancedMesh.Set`: `DynamicInstancedMesh.ts` is not part of this model. The mesh only records its arguments. Capacity growth, instance count, per-instance transforms and colour fallback are not modelled.
- `Instancing.DisposeMeshesRecursive`: `dispose.ts` is not part of this model. Releasing is a flag on the mesh. Whether the helper also disposes the mesh's material or geometry is not modelled.
- `CubeList.RenderableCubeList.BaseUpdate` and `CubeList.RenderableCubeList.BaseDispose`: `RenderableMarker.ts` is not part of this model. The base update only stores the marker and receive time; pose, lifetime and expiry bookkeeping are not modelled. It stores whatever receive time it is given, so an absent receive time (`None`) overwrites the stored one; how the hidden base class treats an absent receive time is not modelled. The base disposal only records a trace entry. The base constructor is assumed to store the first marker, which the first `update` then reads as the previous one.
- `SharedGeometryCache.SharedGeometry.GetGeometry`: `SharedGeometry.ts` is not part of this model. The factory argument (`createCubeGeometry`) is modelled as allocating a new geometry object. Vertex data is not modelled.
- Three.js scene-graph details are not modelled: `add`, and the `castShadow`/`receiveShadow` flags at lines 31-33. GPU upload is not modelled either.
- Floating-point colours, scales and poses are opaque `real` values. Nothing computes with them.
- Use after disposal: `RenderableCubeList.ts` has no guard. A second `dispose` runs `disposeMeshesRecursive(this.mesh)` again (line 39), and `update` after `dispose` reaches `super.update` (line 45). Whether the hidden base class rejects either is not modelled; the model allows both.

## Notes on the code

- The stored marker is replaced before the material check and before `mesh.set` (`RenderableCubeList.ts:44-46`).
- The transparency check compares the new marker against the previously stored marker, not against the material's current flags (`RenderableCubeList.ts:49`). So `Update` keeps the material in step only if it already was.
- Of the mesh, its material and its geometry, the cube list's own `dispose` releases only what `disposeMeshesRecursive(this.mesh)` releases (`RenderableCubeList.ts:39`). That helper is not part of this model. What `super.dispose()` (`RenderableCubeList.ts:40`) releases is not modelled either; the mesh is a child of the node (`RenderableCubeList.ts:33`), so the base disposal may release more.
