/** What a cube list does to its material and its mesh, as a sequence of
    effects, and the properties of a run of updates that follow from it.
    `hasTransparency` is the transparency predicate on markers; no property
    here depends on how it is defined. */
module CubeListEffects {
  import opened Ros
  import opened Materials
  import opened Instancing

  datatype Effect =
    | MaterialWrite(transparent: bool)  // transparent := t; depthWrite := !t; needsUpdate := true
    | MeshSet(args: SetArgs)            // one mesh.set(points, scale, colors, color)
    | MeshDisposed
    | BaseDisposed

  /** The arguments a marker's update forwards to `mesh.set`. */
  function SetArgsOf(m: Marker): SetArgs
  {
    SetArgs(m.points, m.scale, m.colors, m.color)
  }

  /** The effects of updating a cube list whose stored marker is `prev` with
      `next`: a material write when the transparency of the two differs, then
      always one `set` with `next`'s arguments. */
  function UpdateEffects(hasTransparency: Marker -> bool, prev: Marker, next: Marker): seq<Effect>
  {
    (if hasTransparency(next) != hasTransparency(prev) then [MaterialWrite(hasTransparency(next))] else [])
    + [MeshSet(SetArgsOf(next))]
  }

  /** The effects of applying `updates` in order to a cube list whose stored
      marker is `stored`. */
  function Run(hasTransparency: Marker -> bool, stored: Marker, updates: seq<Marker>): seq<Effect>
    decreases |updates|
  {
    if updates == [] then []
    else UpdateEffects(hasTransparency, stored, updates[0]) + Run(hasTransparency, updates[0], updates[1..])
  }

  /** The marker stored after applying `updates`. */
  function Last(stored: Marker, updates: seq<Marker>): Marker
  {
    if updates == [] then stored else updates[|updates| - 1]
  }

  /** The number of material writes among `es`. */
  function MaterialWrites(es: seq<Effect>): nat
  {
    if es == [] then 0 else (if es[0].MaterialWrite? then 1 else 0) + MaterialWrites(es[1..])
  }

  /** The arguments of the `set` calls among `es`, in order. */
  function MeshSets(es: seq<Effect>): seq<SetArgs>
  {
    if es == [] then [] else (if es[0].MeshSet? then [es[0].args] else []) + MeshSets(es[1..])
  }

  /** The material flags after the writes among `es`, starting from `s`. */
  function ApplyMaterial(s: MaterialState, es: seq<Effect>): MaterialState
    decreases |es|
  {
    if es == [] then s
    else
      var s' := if es[0].MaterialWrite? then MaterialState(es[0].transparent, !es[0].transparent, true) else s;
      ApplyMaterial(s', es[1..])
  }

  /** Material flags in step with a transparency value. */
  predicate InStep(s: MaterialState, transparent: bool)
  {
    s.transparent == transparent && s.depthWrite == !transparent
  }

  // ---------------------------------------------------------------------
  // Splitting the counting functions over concatenation

  lemma {:induction false} MaterialWritesAppend(a: seq<Effect>, b: seq<Effect>)
    ensures MaterialWrites(a + b) == MaterialWrites(a) + MaterialWrites(b)
  {
    if a == [] {
      assert a + b == b;
    } else {
      assert (a + b)[1..] == a[1..] + b;
      MaterialWritesAppend(a[1..], b);
    }
  }

  lemma {:induction false} MeshSetsAppend(a: seq<Effect>, b: seq<Effect>)
    ensures MeshSets(a + b) == MeshSets(a) + MeshSets(b)
    decreases |a|
  {
    if a == [] {
      assert a + b == b;
    } else {
      var head: seq<SetArgs> := if a[0].MeshSet? then [a[0].args] else [];
      assert (a + b)[0] == a[0];
      assert (a + b)[1..] == a[1..] + b;
      MeshSetsAppend(a[1..], b);
      calc {
        MeshSets(a + b);
        head + MeshSets(a[1..] + b);
        head + (MeshSets(a[1..]) + MeshSets(b));
        (head + MeshSets(a[1..])) + MeshSets(b);
      }
    }
  }

  lemma {:induction false} ApplyMaterialAppend(s: MaterialState, a: seq<Effect>, b: seq<Effect>)
    ensures ApplyMaterial(s, a + b) == ApplyMaterial(ApplyMaterial(s, a), b)
    decreases |a|
  {
    if a == [] {
      assert a + b == b;
    } else {
      assert (a + b)[1..] == a[1..] + b;
      var s' := if a[0].MaterialWrite? then MaterialState(a[0].transparent, !a[0].transparent, true) else s;
      ApplyMaterialAppend(s', a[1..], b);
    }
  }

  /** Splits a run into its first update and the rest. */
  lemma RunCons(hasTransparency: Marker -> bool, stored: Marker, updates: seq<Marker>)
    requires updates != []
    ensures Run(hasTransparency, stored, updates)
         == UpdateEffects(hasTransparency, stored, updates[0]) + Run(hasTransparency, updates[0], updates[1..])
    ensures Last(stored, updates) == Last(updates[0], updates[1..])
  {
  }

  /** Splits a run into all but its last update and the last one. */
  lemma {:induction false} RunSnoc(hasTransparency: Marker -> bool, stored: Marker, updates: seq<Marker>, next: Marker)
    ensures Run(hasTransparency, stored, updates + [next])
         == Run(hasTransparency, stored, updates) + UpdateEffects(hasTransparency, Last(stored, updates), next)
    ensures Last(stored, updates + [next]) == next
    decreases |updates|
  {
    if updates == [] {
      assert updates + [next] == [next];
      RunCons(hasTransparency, stored, [next]);
      assert [next][1..] == [];
    } else {
      var rest := updates[1..];
      assert (updates + [next])[0] == updates[0];
      assert (updates + [next])[1..] == rest + [next];
      RunCons(hasTransparency, stored, updates);
      RunCons(hasTransparency, stored, updates + [next]);
      RunSnoc(hasTransparency, updates[0], rest, next);
      var first := UpdateEffects(hasTransparency, stored, updates[0]);
      calc {
        Run(hasTransparency, stored, updates + [next]);
        first + Run(hasTransparency, updates[0], rest + [next]);
        first + (Run(hasTransparency, updates[0], rest) + UpdateEffects(hasTransparency, Last(updates[0], rest), next));
        (first + Run(hasTransparency, updates[0], rest)) + UpdateEffects(hasTransparency, Last(updates[0], rest), next);
        Run(hasTransparency, stored, updates) + UpdateEffects(hasTransparency, Last(stored, updates), next);
      }
    }
  }

  // ---------------------------------------------------------------------
  // One update

  /** An update writes the material exactly when the transparency of the new
      marker differs from that of the marker stored before it, and always
      forwards the new marker's arguments to exactly one `set`. */
  lemma UpdateWritesOnlyOnCrossing(hasTransparency: Marker -> bool, prev: Marker, next: Marker)
    ensures MaterialWrites(UpdateEffects(hasTransparency, prev, next))
         == if hasTransparency(next) != hasTransparency(prev) then 1 else 0
    ensures MeshSets(UpdateEffects(hasTransparency, prev, next)) == [SetArgsOf(next)]
  {
    var w: seq<Effect> := if hasTransparency(next) != hasTransparency(prev) then [MaterialWrite(hasTransparency(next))] else [];
    MaterialWritesAppend(w, [MeshSet(SetArgsOf(next))]);
    MeshSetsAppend(w, [MeshSet(SetArgsOf(next))]);
  }

  /** On a crossing the material ends in step with the new marker and marked
      for recompilation; otherwise its flags are left as they were. */
  lemma UpdateMaterialOutcome(hasTransparency: Marker -> bool, s: MaterialState, prev: Marker, next: Marker)
    ensures hasTransparency(next) != hasTransparency(prev) ==>
              ApplyMaterial(s, UpdateEffects(hasTransparency, prev, next))
              == MaterialState(hasTransparency(next), !hasTransparency(next), true)
    ensures hasTransparency(next) == hasTransparency(prev) ==>
              ApplyMaterial(s, UpdateEffects(hasTransparency, prev, next)) == s
  {
    var w: seq<Effect> := if hasTransparency(next) != hasTransparency(prev) then [MaterialWrite(hasTransparency(next))] else [];
    ApplyMaterialAppend(s, w, [MeshSet(SetArgsOf(next))]);
  }

  /** Re-applying the stored marker writes nothing to the material. */
  lemma ReapplyingIsQuiet(hasTransparency: Marker -> bool, m: Marker)
    ensures MaterialWrites(UpdateEffects(hasTransparency, m, m)) == 0
    ensures MeshSets(UpdateEffects(hasTransparency, m, m)) == [SetArgsOf(m)]
  {
    UpdateWritesOnlyOnCrossing(hasTransparency, m, m);
  }

  // ---------------------------------------------------------------------
  // A run of updates

  /** A run writes the material at most once per update. */
  lemma {:induction false} RunWritesAtMostOncePerUpdate(hasTransparency: Marker -> bool, stored: Marker, updates: seq<Marker>)
    ensures MaterialWrites(Run(hasTransparency, stored, updates)) <= |updates|
    decreases |updates|
  {
    if updates != [] {
      RunCons(hasTransparency, stored, updates);
      MaterialWritesAppend(UpdateEffects(hasTransparency, stored, updates[0]), Run(hasTransparency, updates[0], updates[1..]));
      UpdateWritesOnlyOnCrossing(hasTransparency, stored, updates[0]);
      RunWritesAtMostOncePerUpdate(hasTransparency, updates[0], updates[1..]);
    }
  }

  /** A run leaves the material alone exactly when every marker in it has the
      transparency of the marker stored before it. */
  lemma {:induction false} RunQuietIffUniform(hasTransparency: Marker -> bool, stored: Marker, updates: seq<Marker>)
    ensures MaterialWrites(Run(hasTransparency, stored, updates)) == 0
        <==> forall i :: 0 <= i < |updates| ==> hasTransparency(updates[i]) == hasTransparency(stored)
    decreases |updates|
  {
    if updates != [] {
      var rest := updates[1..];
      RunCons(hasTransparency, stored, updates);
      MaterialWritesAppend(UpdateEffects(hasTransparency, stored, updates[0]), Run(hasTransparency, updates[0], rest));
      UpdateWritesOnlyOnCrossing(hasTransparency, stored, updates[0]);
      RunQuietIffUniform(hasTransparency, updates[0], rest);
      assert forall i :: 0 <= i < |rest| ==> rest[i] == updates[i + 1];
      if forall i :: 0 <= i < |updates| ==> hasTransparency(updates[i]) == hasTransparency(stored) {
        assert hasTransparency(updates[0]) == hasTransparency(stored);
        forall i | 0 <= i < |rest|
          ensures hasTransparency(rest[i]) == hasTransparency(updates[0])
        {
          assert hasTransparency(updates[i + 1]) == hasTransparency(stored);
        }
      }
      if MaterialWrites(Run(hasTransparency, stored, updates)) == 0 {
        forall i | 0 <= i < |updates|
          ensures hasTransparency(updates[i]) == hasTransparency(stored)
        {
          if i > 0 {
            assert hasTransparency(rest[i - 1]) == hasTransparency(updates[0]);
          }
        }
      }
    }
  }

  /** The number of material writes in a run is even exactly when the last
      stored marker has the transparency of the first. */
  lemma {:induction false} RunWriteParity(hasTransparency: Marker -> bool, stored: Marker, updates: seq<Marker>)
    ensures MaterialWrites(Run(hasTransparency, stored, updates)) % 2 == 0
        <==> hasTransparency(Last(stored, updates)) == hasTransparency(stored)
    decreases |updates|
  {
    if updates != [] {
      RunCons(hasTransparency, stored, updates);
      MaterialWritesAppend(UpdateEffects(hasTransparency, stored, updates[0]), Run(hasTransparency, updates[0], updates[1..]));
      UpdateWritesOnlyOnCrossing(hasTransparency, stored, updates[0]);
      RunWriteParity(hasTransparency, updates[0], updates[1..]);
    }
  }

  /** A run forwards every update's marker to `set`, once each and in order,
      whether or not its transparency changed. */
  lemma {:induction false} RunForwardsEveryMarker(hasTransparency: Marker -> bool, stored: Marker, updates: seq<Marker>)
    ensures |MeshSets(Run(hasTransparency, stored, updates))| == |updates|
    ensures forall i :: 0 <= i < |updates| ==> MeshSets(Run(hasTransparency, stored, updates))[i] == SetArgsOf(updates[i])
    decreases |updates|
  {
    if updates != [] {
      var rest := updates[1..];
      var first := UpdateEffects(hasTransparency, stored, updates[0]);
      var later := Run(hasTransparency, updates[0], rest);
      RunCons(hasTransparency, stored, updates);
      MeshSetsAppend(first, later);
      UpdateWritesOnlyOnCrossing(hasTransparency, stored, updates[0]);
      RunForwardsEveryMarker(hasTransparency, updates[0], rest);
      var tail := MeshSets(later);
      var sets := [SetArgsOf(updates[0])] + tail;
      assert MeshSets(Run(hasTransparency, stored, updates)) == sets;
      forall i | 0 <= i < |updates|
        ensures sets[i] == SetArgsOf(updates[i])
      {
        if i > 0 {
          assert sets[i] == tail[i - 1];
          assert rest[i - 1] == updates[i];
        }
      }
    }
  }

  /** A material in step with the stored marker stays in step with the stored
      marker through any run; it is marked for recompilation afterwards
      exactly when it was before or the run wrote it. */
  lemma {:induction false} RunKeepsMaterialInStep(hasTransparency: Marker -> bool, s: MaterialState, stored: Marker, updates: seq<Marker>)
    requires InStep(s, hasTransparency(stored))
    ensures InStep(ApplyMaterial(s, Run(hasTransparency, stored, updates)), hasTransparency(Last(stored, updates)))
    ensures ApplyMaterial(s, Run(hasTransparency, stored, updates)).needsUpdate
        == (s.needsUpdate || MaterialWrites(Run(hasTransparency, stored, updates)) > 0)
    decreases |updates|
  {
    if updates != [] {
      var first := UpdateEffects(hasTransparency, stored, updates[0]);
      var rest := Run(hasTransparency, updates[0], updates[1..]);
      RunCons(hasTransparency, stored, updates);
      ApplyMaterialAppend(s, first, rest);
      MaterialWritesAppend(first, rest);
      UpdateMaterialOutcome(hasTransparency, s, stored, updates[0]);
      UpdateWritesOnlyOnCrossing(hasTransparency, stored, updates[0]);
      RunKeepsMaterialInStep(hasTransparency, ApplyMaterial(s, first), updates[0], updates[1..]);
    }
  }

  /** Opaque, then transparent, then opaque again: the material is written
      twice, first to transparent and then back to opaque. */
  lemma OpaqueTransparentOpaque(hasTransparency: Marker -> bool, s: MaterialState, solid: Marker, clear: Marker, solidAgain: Marker)
    requires !hasTransparency(solid) && hasTransparency(clear) && !hasTransparency(solidAgain)
    ensures MaterialWrites(Run(hasTransparency, solid, [clear, solidAgain])) == 2
    ensures ApplyMaterial(s, UpdateEffects(hasTransparency, solid, clear)) == MaterialState(true, false, true)
    ensures ApplyMaterial(s, Run(hasTransparency, solid, [clear, solidAgain])) == MaterialState(false, true, true)
  {
    var first := UpdateEffects(hasTransparency, solid, clear);
    var second := UpdateEffects(hasTransparency, clear, solidAgain);
    assert Run(hasTransparency, solid, [clear, solidAgain]) == first + second by {
      RunCons(hasTransparency, solid, [clear, solidAgain]);
      assert [clear, solidAgain][1..] == [solidAgain];
      RunCons(hasTransparency, clear, [solidAgain]);
      assert [solidAgain][1..] == [];
      assert second + [] == second;
    }
    MaterialWritesAppend(first, second);
    UpdateWritesOnlyOnCrossing(hasTransparency, solid, clear);
    UpdateWritesOnlyOnCrossing(hasTransparency, clear, solidAgain);
    ApplyMaterialAppend(s, first, second);
    UpdateMaterialOutcome(hasTransparency, s, solid, clear);
    UpdateMaterialOutcome(hasTransparency, ApplyMaterial(s, first), clear, solidAgain);
  }
}
