/** The renderer-wide cache of base geometries, keyed by a string. */
module SharedGeometryCache {

  /** An immutable base geometry (vertex and index data are not modelled);
      only its identity matters here. */
  class BufferGeometry {
    constructor ()
    {
    }
  }

  class SharedGeometry {
    var entries: map<string, BufferGeometry>

    constructor ()
      ensures entries == map[]
    {
      entries := map[];
    }

    /** Returns the geometry cached under `key`, creating and caching a new
        one only when the key is absent. Entries are never replaced. */
    method GetGeometry(key: string) returns (geometry: BufferGeometry)
      modifies this
      ensures key in entries && entries[key] == geometry
      ensures key in old(entries) ==> geometry == old(entries)[key] && entries == old(entries)
      ensures key !in old(entries) ==> fresh(geometry) && entries == old(entries)[key := geometry]
    {
      if key in entries {
        geometry := entries[key];
      } else {
        geometry := new BufferGeometry();
        entries := entries[key := geometry];
      }
    }
  }

  /** The part of the renderer a renderable sees: its geometry cache. */
  class Renderer {
    const sharedGeometry: SharedGeometry

    constructor ()
      ensures fresh(sharedGeometry) && sharedGeometry.entries == map[]
    {
      sharedGeometry := new SharedGeometry();
    }
  }
}
