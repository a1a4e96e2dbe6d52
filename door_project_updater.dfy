/**
 * `DoorProjectUpdater`: after door `oldDoorId` of the scene with GUID `targetSceneGuid` is
 * renamed to `newDoorId`, every link naming that scene GUID and the old id is rewritten to the
 * new id, first in the open scenes (marked dirty, not saved), then in every prefab asset
 * (saved when changed). `changedLinks` is the caller's running count.
 */
module DoorProjectUpdater {
  import opened Strings
  import opened Assets
  import opened Doors
  import opened DoorUtils
  import opened EditorWorld

  /** The link of `d` points at door `oldId` of scene `guid`. */
  predicate Matches(d: Door, guid: Guid, oldId: string) {
    d.link.targetScene.sceneGuid == guid && d.link.targetDoorId == oldId
  }

  /** The rewrite of one door. */
  function Relink(d: Door, guid: Guid, oldId: string, newId: string): Door
  {
    if Matches(d, guid, oldId) then d.(link := d.link.(targetDoorId := newId)) else d
  }

  /** Only the target door id of a matching link changes; every other field stays. */
  lemma RelinkFields(d: Door, guid: Guid, oldId: string, newId: string)
    ensures var r := Relink(d, guid, oldId, newId);
      r.instanceId == d.instanceId && r.doorId == d.doorId && r.entryPoint == d.entryPoint &&
      r.position == d.position && r.name == d.name && r.link.targetScene == d.link.targetScene &&
      r.link.targetDoorId == (if Matches(d, guid, oldId) then newId else d.link.targetDoorId)
  {
  }

  /** Every door rewritten, in place. */
  function RelinkAll(doors: seq<Door>, guid: Guid, oldId: string, newId: string): (r: seq<Door>)
    ensures |r| == |doors|
    ensures forall i :: 0 <= i < |doors| ==> r[i] == Relink(doors[i], guid, oldId, newId)
  {
    if |doors| == 0 then []
    else RelinkAll(doors[..|doors| - 1], guid, oldId, newId) + [Relink(doors[|doors| - 1], guid, oldId, newId)]
  }

  /** Every root of a scene rewritten. */
  function RelinkRoots(roots: seq<seq<Door>>, guid: Guid, oldId: string, newId: string): (r: seq<seq<Door>>)
    ensures |r| == |roots|
    ensures forall i :: 0 <= i < |roots| ==> r[i] == RelinkAll(roots[i], guid, oldId, newId)
  {
    if |roots| == 0 then []
    else RelinkRoots(roots[..|roots| - 1], guid, oldId, newId) + [RelinkAll(roots[|roots| - 1], guid, oldId, newId)]
  }

  /** Number of links the rewrite changes. */
  function CountMatches(doors: seq<Door>, guid: Guid, oldId: string): nat
  {
    if |doors| == 0 then 0
    else CountMatches(doors[..|doors| - 1], guid, oldId) + (if Matches(doors[|doors| - 1], guid, oldId) then 1 else 0)
  }

  lemma {:induction false} CountMatchesAppend(a: seq<Door>, b: seq<Door>, guid: Guid, oldId: string)
    ensures CountMatches(a + b, guid, oldId) == CountMatches(a, guid, oldId) + CountMatches(b, guid, oldId)
    decreases |b|
  {
    if |b| == 0 {
      assert a + b == a;
    } else {
      assert (a + b)[..|a + b| - 1] == a + b[..|b| - 1];
      CountMatchesAppend(a, b[..|b| - 1], guid, oldId);
    }
  }

  /** No link is rewritten exactly when no door matches. */
  lemma {:induction false} CountMatchesZero(doors: seq<Door>, guid: Guid, oldId: string)
    ensures CountMatches(doors, guid, oldId) == 0 <==> forall i :: 0 <= i < |doors| ==> !Matches(doors[i], guid, oldId)
  {
    if |doors| > 0 {
      var prefix := doors[..|doors| - 1];
      CountMatchesZero(prefix, guid, oldId);
      assert forall i :: 0 <= i < |prefix| ==> prefix[i] == doors[i];
    }
  }

  /** Rewriting twice is rewriting once. */
  lemma RelinkAllIdempotent(doors: seq<Door>, guid: Guid, oldId: string, newId: string)
    ensures RelinkAll(RelinkAll(doors, guid, oldId, newId), guid, oldId, newId) == RelinkAll(doors, guid, oldId, newId)
  {
  }

  /** The rewrite leaves a list as it was exactly when the ids are equal or nothing matches. */
  lemma RelinkAllIdentity(doors: seq<Door>, guid: Guid, oldId: string, newId: string)
    ensures RelinkAll(doors, guid, oldId, newId) == doors <==> oldId == newId || CountMatches(doors, guid, oldId) == 0
  {
    CountMatchesZero(doors, guid, oldId);
    var r := RelinkAll(doors, guid, oldId, newId);
    if r == doors && oldId != newId {
      forall i | 0 <= i < |doors| ensures !Matches(doors[i], guid, oldId) {
        assert r[i] == doors[i];
      }
    }
  }

  /** After a rename to a different id, no link names the old id any more. */
  lemma CountAfterRelink(doors: seq<Door>, guid: Guid, oldId: string, newId: string)
    ensures CountMatches(RelinkAll(doors, guid, oldId, newId), guid, oldId) ==
      if oldId == newId then CountMatches(doors, guid, oldId) else 0
  {
    var r := RelinkAll(doors, guid, oldId, newId);
    if oldId == newId {
      assert r == doors;
    } else {
      CountMatchesZero(r, guid, oldId);
    }
  }

  /** Renaming A to B and then B to A restores every link, provided no link named B before. */
  lemma RelinkRoundTrip(doors: seq<Door>, guid: Guid, a: string, b: string)
    requires CountMatches(doors, guid, b) == 0
    ensures RelinkAll(RelinkAll(doors, guid, a, b), guid, b, a) == doors
  {
    CountMatchesZero(doors, guid, b);
  }

  /** Rewriting the roots rewrites the flattened list, and the counts add up root by root. */
  lemma {:induction false} FlattenRelinkRoots(roots: seq<seq<Door>>, guid: Guid, oldId: string, newId: string)
    ensures Flatten(RelinkRoots(roots, guid, oldId, newId)) == RelinkAll(Flatten(roots), guid, oldId, newId)
  {
    if |roots| > 0 {
      var prefix := roots[..|roots| - 1];
      var last := roots[|roots| - 1];
      var r := RelinkRoots(roots, guid, oldId, newId);
      assert r[..|r| - 1] == RelinkRoots(prefix, guid, oldId, newId);
      FlattenRelinkRoots(prefix, guid, oldId, newId);
      RelinkAllAppend(Flatten(prefix), last, guid, oldId, newId);
    }
  }

  lemma RelinkAllAppend(a: seq<Door>, b: seq<Door>, guid: Guid, oldId: string, newId: string)
    ensures RelinkAll(a + b, guid, oldId, newId) == RelinkAll(a, guid, oldId, newId) + RelinkAll(b, guid, oldId, newId)
  {
  }

  lemma RelinkRootsIdempotent(roots: seq<seq<Door>>, guid: Guid, oldId: string, newId: string)
    ensures RelinkRoots(RelinkRoots(roots, guid, oldId, newId), guid, oldId, newId) == RelinkRoots(roots, guid, oldId, newId)
  {
    var r := RelinkRoots(roots, guid, oldId, newId);
    forall i | 0 <= i < |roots|
      ensures RelinkAll(r[i], guid, oldId, newId) == r[i]
    {
      RelinkAllIdempotent(roots[i], guid, oldId, newId);
    }
  }

  /** The count over one more door. */
  lemma CountMatchesStep(doors: seq<Door>, j: nat, guid: Guid, oldId: string)
    requires j < |doors|
    ensures CountMatches(doors[..j + 1], guid, oldId) ==
      CountMatches(doors[..j], guid, oldId) + if Matches(doors[j], guid, oldId) then 1 else 0
  {
    assert doors[..j + 1][..j] == doors[..j];
  }

  /** The count over the doors of one more root. */
  lemma CountFlattenStep(roots: seq<seq<Door>>, r: nat, guid: Guid, oldId: string)
    requires r < |roots|
    ensures CountMatches(Flatten(roots[..r + 1]), guid, oldId) ==
      CountMatches(Flatten(roots[..r]), guid, oldId) + CountMatches(roots[r], guid, oldId)
  {
    assert roots[..r + 1][..r] == roots[..r];
    CountMatchesAppend(Flatten(roots[..r]), roots[r], guid, oldId);
  }

  /**
   * The per-door loop shared by `ReplaceInScene` and the prefab pass: rewrites each matching
   * link and counts the rewrites.
   */
  method RelinkDoors(doors: seq<Door>, guid: Guid, oldId: string, newId: string)
    returns (updated: seq<Door>, changed: nat)
    ensures updated == RelinkAll(doors, guid, oldId, newId)
    ensures changed == CountMatches(doors, guid, oldId)
  {
    updated, changed := doors, 0;
    var j := 0;
    while j < |doors|
      invariant 0 <= j <= |doors| && |updated| == |doors|
      invariant forall k :: 0 <= k < j ==> updated[k] == Relink(doors[k], guid, oldId, newId)
      invariant forall k :: j <= k < |doors| ==> updated[k] == doors[k]
      invariant changed == CountMatches(doors[..j], guid, oldId)
    {
      CountMatchesStep(doors, j, guid, oldId);
      var door := doors[j];
      if door.link.targetScene.sceneGuid == guid && door.link.targetDoorId == oldId {
        updated := updated[j := door.(link := door.link.(targetDoorId := newId))];
        changed := changed + 1;
      }
      j := j + 1;
    }
    assert doors[..|doors|] == doors;
  }

  /**
   * `ReplaceInScene` on an open scene: the scene's doors are rewritten and the number of
   * rewritten links is returned.
   */
  method ReplaceInScene(w: World, scene: Scene, guid: Guid, oldId: string, newId: string) returns (changed: nat)
    requires scene.valid && scene.isLoaded && scene.path in w.sceneContents
    modifies w`sceneContents
    ensures w.sceneContents ==
      old(w.sceneContents)[scene.path := RelinkRoots(old(w.sceneContents)[scene.path], guid, oldId, newId)]
    ensures changed == CountMatches(Flatten(old(w.sceneContents)[scene.path]), guid, oldId)
  {
    var roots := w.sceneContents[scene.path];
    ghost var original := roots;
    changed := 0;
    var r := 0;
    while r < |roots|
      invariant 0 <= r <= |roots| && |roots| == |original|
      invariant w.sceneContents == old(w.sceneContents)
      invariant forall i :: 0 <= i < r ==> roots[i] == RelinkAll(original[i], guid, oldId, newId)
      invariant forall i :: r <= i < |roots| ==> roots[i] == original[i]
      invariant changed == CountMatches(Flatten(original[..r]), guid, oldId)
    {
      CountFlattenStep(original, r, guid, oldId);
      var updated, n := RelinkDoors(roots[r], guid, oldId, newId);
      roots := roots[r := updated];
      changed := changed + n;
      r := r + 1;
    }
    assert original[..|original|] == original;
    assert roots == RelinkRoots(original, guid, oldId, newId);
    w.sceneContents := w.sceneContents[scene.path := roots];
  }

  // ---- The open-scene pass ----

  /** The state the open-scene pass threads through the hierarchy. */
  datatype ScenePass = ScenePass(contents: SceneContents, dirty: set<Path>, changedLinks: int)

  predicate SlotsResolve(slots: seq<Scene>, contents: SceneContents) {
    forall i :: 0 <= i < |slots| && slots[i].valid ==> slots[i].path in contents
  }

  /** One slot of the open-scene pass: a valid, loaded scene is rewritten, and marked dirty and
      counted when at least one of its links changed. */
  function SceneVisit(p: ScenePass, s: Scene, guid: Guid, oldId: string, newId: string): (r: ScenePass)
    requires s.valid ==> s.path in p.contents
    ensures r.contents.Keys == p.contents.Keys
    ensures r.changedLinks >= p.changedLinks
    ensures p.dirty <= r.dirty
  {
    if !s.valid || !s.isLoaded then p
    else
      var roots := p.contents[s.path];
      var n := CountMatches(Flatten(roots), guid, oldId);
      var contents := p.contents[s.path := RelinkRoots(roots, guid, oldId, newId)];
      if n > 0 then ScenePass(contents, p.dirty + {s.path}, p.changedLinks + n)
      else p.(contents := contents)
  }

  /** The pass over the first slots, slot by slot. */
  function OpenScenesPass(slots: seq<Scene>, start: ScenePass, guid: Guid, oldId: string, newId: string)
    : (r: ScenePass)
    requires SlotsResolve(slots, start.contents)
    ensures r.contents.Keys == start.contents.Keys
    ensures r.changedLinks >= start.changedLinks
    ensures start.dirty <= r.dirty
  {
    if |slots| == 0 then start
    else SceneVisit(OpenScenesPass(slots[..|slots| - 1], start, guid, oldId, newId), slots[|slots| - 1], guid, oldId, newId)
  }

  /** The pass over one more slot is one more visit. */
  lemma OpenScenesPassStep(slots: seq<Scene>, i: nat, start: ScenePass, guid: Guid, oldId: string, newId: string)
    requires i < |slots| && SlotsResolve(slots, start.contents)
    ensures SlotsResolve(slots[..i], start.contents) && SlotsResolve(slots[..i + 1], start.contents)
    ensures slots[i].valid ==> slots[i].path in OpenScenesPass(slots[..i], start, guid, oldId, newId).contents
    ensures OpenScenesPass(slots[..i + 1], start, guid, oldId, newId) ==
      SceneVisit(OpenScenesPass(slots[..i], start, guid, oldId, newId), slots[i], guid, oldId, newId)
  {
    assert slots[..i + 1][..i] == slots[..i];
    assert slots[..i + 1][i] == slots[i];
  }

  /** Some slot of `slots` is this scene, valid and loaded. */
  predicate LoadedIn(slots: seq<Scene>, path: Path) {
    exists i :: 0 <= i < |slots| && slots[i].valid && slots[i].isLoaded && slots[i].path == path
  }

  /**
   * The matching links of the loaded scenes, as they were before the pass: each valid, loaded
   * scene counts once, at its first slot. A later slot of the same scene adds nothing, except
   * when the ids are equal, because the rewrite then leaves its links matching.
   */
  function LoadedMatches(slots: seq<Scene>, contents: SceneContents, guid: Guid, oldId: string, newId: string): nat
    requires SlotsResolve(slots, contents)
  {
    if |slots| == 0 then 0
    else
      var prefix := slots[..|slots| - 1];
      var s := slots[|slots| - 1];
      assert SlotsResolve(prefix, contents);
      LoadedMatches(prefix, contents, guid, oldId, newId) +
        (if s.valid && s.isLoaded && (oldId == newId || !LoadedIn(prefix, s.path))
         then CountMatches(Flatten(contents[s.path]), guid, oldId) else 0)
  }

  /**
   * After the pass, a loaded scene's doors are rewritten and every other scene is untouched;
   * a scene is newly dirty exactly when it is loaded and had a matching link; and
   * `changedLinks` grows by exactly the matching links of the loaded scenes.
   */
  lemma {:induction false} OpenScenesPassEffect(slots: seq<Scene>, start: ScenePass, guid: Guid, oldId: string,
                                                newId: string, path: Path)
    requires SlotsResolve(slots, start.contents) && path in start.contents
    ensures var r := OpenScenesPass(slots, start, guid, oldId, newId);
      r.contents[path] == (if LoadedIn(slots, path)
                           then RelinkRoots(start.contents[path], guid, oldId, newId)
                           else start.contents[path])
    ensures var r := OpenScenesPass(slots, start, guid, oldId, newId);
      path in r.dirty <==> (path in start.dirty ||
        (LoadedIn(slots, path) && CountMatches(Flatten(start.contents[path]), guid, oldId) > 0))
    ensures OpenScenesPass(slots, start, guid, oldId, newId).changedLinks ==
      start.changedLinks + LoadedMatches(slots, start.contents, guid, oldId, newId)
  {
    if |slots| > 0 {
      var prefix := slots[..|slots| - 1];
      var s := slots[|slots| - 1];
      assert SlotsResolve(prefix, start.contents);
      OpenScenesPassEffect(prefix, start, guid, oldId, newId, path);
      LoadedInStep(slots, path);
      var p := OpenScenesPass(prefix, start, guid, oldId, newId);
      if s.valid && s.isLoaded && s.path == path {
        SceneVisitStep(start.contents[path], p.contents[path], LoadedIn(prefix, path), guid, oldId, newId);
      }
      if s.valid && s.isLoaded {
        OpenScenesPassEffect(prefix, start, guid, oldId, newId, s.path);
        RevisitCount(start.contents[s.path], p.contents[s.path], LoadedIn(prefix, s.path), guid, oldId, newId);
      }
    }
  }

  /** The links a visit of a scene counts, whose roots so far are `current`: all of them on a
      first visit, and on a revisit none, unless the ids are equal. */
  lemma RevisitCount(roots: seq<seq<Door>>, current: seq<seq<Door>>, visited: bool, guid: Guid, oldId: string, newId: string)
    requires current == if visited then RelinkRoots(roots, guid, oldId, newId) else roots
    ensures CountMatches(Flatten(current), guid, oldId) ==
      if !visited || oldId == newId then CountMatches(Flatten(roots), guid, oldId) else 0
  {
    if visited {
      FlattenRelinkRoots(roots, guid, oldId, newId);
      CountAfterRelink(Flatten(roots), guid, oldId, newId);
    }
  }

  /** A scene is loaded in the slots exactly when it is loaded in all but the last or in the last. */
  lemma LoadedInStep(slots: seq<Scene>, path: Path)
    requires |slots| > 0
    ensures var s := slots[|slots| - 1];
      LoadedIn(slots, path) <==> LoadedIn(slots[..|slots| - 1], path) || (s.valid && s.isLoaded && s.path == path)
  {
    var prefix := slots[..|slots| - 1];
    var s := slots[|slots| - 1];
    if LoadedIn(slots, path) && !(s.valid && s.isLoaded && s.path == path) {
      var i :| 0 <= i < |slots| && slots[i].valid && slots[i].isLoaded && slots[i].path == path;
      assert prefix[i] == slots[i];
    }
    if LoadedIn(prefix, path) {
      var i :| 0 <= i < |prefix| && prefix[i].valid && prefix[i].isLoaded && prefix[i].path == path;
      assert slots[i] == prefix[i];
    }
  }

  /** One more visit of a loaded scene whose roots so far are `current`. */
  lemma SceneVisitStep(roots: seq<seq<Door>>, current: seq<seq<Door>>, visited: bool, guid: Guid, oldId: string, newId: string)
    requires current == if visited then RelinkRoots(roots, guid, oldId, newId) else roots
    ensures RelinkRoots(current, guid, oldId, newId) == RelinkRoots(roots, guid, oldId, newId)
    ensures visited ==> (CountMatches(Flatten(current), guid, oldId) > 0 ==> CountMatches(Flatten(roots), guid, oldId) > 0)
    ensures !visited ==> CountMatches(Flatten(current), guid, oldId) == CountMatches(Flatten(roots), guid, oldId)
  {
    if visited {
      FlattenRelinkRoots(roots, guid, oldId, newId);
      CountAfterRelink(Flatten(roots), guid, oldId, newId);
      RelinkRootsIdempotent(roots, guid, oldId, newId);
    }
  }

  /** One iteration of `ReplaceReferencesInOpenScenes`: the visit of one slot. */
  method VisitScene(w: World, scene: Scene, guid: Guid, oldId: string, newId: string, changedLinks: int)
    returns (newChangedLinks: int)
    requires w.Valid() && (scene.valid ==> scene.path in w.sceneContents)
    modifies w`sceneContents, w`dirty
    ensures w.Valid()
    ensures ScenePass(w.sceneContents, w.dirty, newChangedLinks) ==
      SceneVisit(ScenePass(old(w.sceneContents), old(w.dirty), changedLinks), scene, guid, oldId, newId)
  {
    newChangedLinks := changedLinks;
    if scene.valid && scene.isLoaded {
      var sceneChanged := ReplaceInScene(w, scene, guid, oldId, newId);
      if sceneChanged > 0 {
        newChangedLinks := newChangedLinks + sceneChanged;
        w.MarkSceneDirty(scene);
      }
    }
  }

  /** `ReplaceReferencesInOpenScenes`: the pass over the scenes of the hierarchy. */
  method ReplaceReferencesInOpenScenes(w: World, guid: Guid, oldId: string, newId: string, changedLinks: int)
    returns (newChangedLinks: int)
    requires w.Valid()
    modifies w`sceneContents, w`dirty
    ensures w.Valid()
    ensures var r := OpenScenesPass(w.hierarchy, ScenePass(old(w.sceneContents), old(w.dirty), changedLinks),
                                    guid, oldId, newId);
      w.sceneContents == r.contents && w.dirty == r.dirty && newChangedLinks == r.changedLinks
  {
    ghost var start := ScenePass(w.sceneContents, w.dirty, changedLinks);
    newChangedLinks := changedLinks;
    var i := 0;
    assert SlotsResolve(w.hierarchy, start.contents);
    while i < |w.hierarchy|
      invariant 0 <= i <= |w.hierarchy|
      invariant w.Valid()
      invariant SlotsResolve(w.hierarchy[..i], start.contents)
      invariant ScenePass(w.sceneContents, w.dirty, newChangedLinks)
        == OpenScenesPass(w.hierarchy[..i], start, guid, oldId, newId)
    {
      OpenScenesPassStep(w.hierarchy, i, start, guid, oldId, newId);
      newChangedLinks := VisitScene(w, w.hierarchy[i], guid, oldId, newId, newChangedLinks);
      i := i + 1;
    }
    assert w.hierarchy[..|w.hierarchy|] == w.hierarchy;
  }

  // ---- The prefab pass ----

  /** The state the prefab pass threads through the prefab GUIDs. */
  datatype PrefabPass = PrefabPass(prefabs: map<Path, seq<Door>>, saved: seq<Path>, changedLinks: int)

  /** Every prefab GUID resolves to a blank path or to a prefab asset. */
  predicate PrefabsResolve(guids: seq<Guid>, db: AssetDb, prefabs: map<Path, seq<Door>>) {
    forall i :: 0 <= i < |guids| ==> IsBlank(db.GuidToAssetPath(guids[i])) || db.GuidToAssetPath(guids[i]) in prefabs
  }

  /** One prefab GUID of the pass: a blank path is skipped, and a prefab is rewritten, saved
      and counted when at least one of its links changed. */
  function PrefabVisit(p: PrefabPass, path: Path, guid: Guid, oldId: string, newId: string): (r: PrefabPass)
    requires IsBlank(path) || path in p.prefabs
    ensures r.prefabs.Keys == p.prefabs.Keys
    ensures r.changedLinks >= p.changedLinks
    ensures |r.saved| >= |p.saved| && r.saved[..|p.saved|] == p.saved
  {
    if IsBlank(path) then p
    else
      var doors := p.prefabs[path];
      var n := CountMatches(doors, guid, oldId);
      if n > 0 then PrefabPass(p.prefabs[path := RelinkAll(doors, guid, oldId, newId)], p.saved + [path], p.changedLinks + n)
      else p
  }

  /** The pass over the first prefab GUIDs, GUID by GUID. */
  function PrefabsPass(guids: seq<Guid>, db: AssetDb, start: PrefabPass, guid: Guid, oldId: string, newId: string)
    : (r: PrefabPass)
    requires PrefabsResolve(guids, db, start.prefabs)
    ensures r.prefabs.Keys == start.prefabs.Keys
    ensures r.changedLinks >= start.changedLinks
    ensures |r.saved| >= |start.saved| && r.saved[..|start.saved|] == start.saved
  {
    if |guids| == 0 then start
    else
      var p := PrefabsPass(guids[..|guids| - 1], db, start, guid, oldId, newId);
      PrefabVisit(p, db.GuidToAssetPath(guids[|guids| - 1]), guid, oldId, newId)
  }

  /** The pass over one more GUID is one more visit. */
  lemma PrefabsPassStep(guids: seq<Guid>, i: nat, db: AssetDb, start: PrefabPass, guid: Guid, oldId: string, newId: string)
    requires i < |guids| && PrefabsResolve(guids, db, start.prefabs)
    ensures PrefabsResolve(guids[..i], db, start.prefabs) && PrefabsResolve(guids[..i + 1], db, start.prefabs)
    ensures var path := db.GuidToAssetPath(guids[i]);
      IsBlank(path) || path in PrefabsPass(guids[..i], db, start, guid, oldId, newId).prefabs
    ensures PrefabsPass(guids[..i + 1], db, start, guid, oldId, newId) ==
      PrefabVisit(PrefabsPass(guids[..i], db, start, guid, oldId, newId), db.GuidToAssetPath(guids[i]), guid, oldId, newId)
  {
    assert guids[..i + 1][..i] == guids[..i];
    assert guids[..i + 1][i] == guids[i];
  }

  /** Some prefab GUID resolves to this non-blank path. */
  predicate VisitedIn(guids: seq<Guid>, db: AssetDb, path: Path) {
    !IsBlank(path) && exists i :: 0 <= i < |guids| && db.GuidToAssetPath(guids[i]) == path
  }

  /**
   * The matching links of the prefabs the GUIDs name, as they were before the pass: each
   * prefab counts once, at its first GUID. A later GUID of the same prefab adds nothing, except
   * when the ids are equal, because the rewrite then leaves its links matching.
   */
  function PrefabMatches(guids: seq<Guid>, db: AssetDb, prefabs: map<Path, seq<Door>>, guid: Guid, oldId: string,
                         newId: string): nat
    requires PrefabsResolve(guids, db, prefabs)
  {
    if |guids| == 0 then 0
    else
      var prefix := guids[..|guids| - 1];
      var last := db.GuidToAssetPath(guids[|guids| - 1]);
      assert PrefabsResolve(prefix, db, prefabs);
      PrefabMatches(prefix, db, prefabs, guid, oldId, newId) +
        (if !IsBlank(last) && (oldId == newId || !VisitedIn(prefix, db, last))
         then CountMatches(prefabs[last], guid, oldId) else 0)
  }

  /**
   * After the pass every visited prefab's doors are rewritten and the others are untouched; a
   * prefab is saved exactly when it is visited and had a matching link; and `changedLinks`
   * grows by exactly the matching links of the visited prefabs.
   */
  lemma {:induction false} PrefabsPassEffect(guids: seq<Guid>, db: AssetDb, start: PrefabPass, guid: Guid,
                                             oldId: string, newId: string, path: Path)
    requires PrefabsResolve(guids, db, start.prefabs) && path in start.prefabs
    ensures var r := PrefabsPass(guids, db, start, guid, oldId, newId);
      r.prefabs[path] == (if VisitedIn(guids, db, path)
                          then RelinkAll(start.prefabs[path], guid, oldId, newId)
                          else start.prefabs[path])
    ensures var r := PrefabsPass(guids, db, start, guid, oldId, newId);
      path in r.saved <==> (path in start.saved ||
        (VisitedIn(guids, db, path) && CountMatches(start.prefabs[path], guid, oldId) > 0))
    ensures PrefabsPass(guids, db, start, guid, oldId, newId).changedLinks ==
      start.changedLinks + PrefabMatches(guids, db, start.prefabs, guid, oldId, newId)
  {
    if |guids| > 0 {
      var prefix := guids[..|guids| - 1];
      var last := db.GuidToAssetPath(guids[|guids| - 1]);
      assert PrefabsResolve(prefix, db, start.prefabs);
      PrefabsPassEffect(prefix, db, start, guid, oldId, newId, path);
      VisitedInStep(guids, db, path);
      var p := PrefabsPass(prefix, db, start, guid, oldId, newId);
      var r := PrefabsPass(guids, db, start, guid, oldId, newId);
      if IsBlank(last) || last != path {
        assert r.prefabs[path] == p.prefabs[path];
        assert path in r.saved <==> path in p.saved;
      } else {
        PrefabVisitStep(start.prefabs[path], p.prefabs[path], VisitedIn(prefix, db, path), guid, oldId, newId);
      }
      if !IsBlank(last) {
        PrefabsPassEffect(prefix, db, start, guid, oldId, newId, last);
        CountAfterRelink(start.prefabs[last], guid, oldId, newId);
      }
    }
  }

  /** A prefab is visited by the GUIDs exactly when it is visited by all but the last or by the
      last. */
  lemma VisitedInStep(guids: seq<Guid>, db: AssetDb, path: Path)
    requires |guids| > 0
    ensures var last := db.GuidToAssetPath(guids[|guids| - 1]);
      VisitedIn(guids, db, path) <==> VisitedIn(guids[..|guids| - 1], db, path) || (!IsBlank(last) && last == path)
  {
    var prefix := guids[..|guids| - 1];
    var last := db.GuidToAssetPath(guids[|guids| - 1]);
    if VisitedIn(guids, db, path) && last != path {
      var i :| 0 <= i < |guids| && db.GuidToAssetPath(guids[i]) == path;
      assert prefix[i] == guids[i];
    }
    if VisitedIn(prefix, db, path) {
      var i :| 0 <= i < |prefix| && db.GuidToAssetPath(prefix[i]) == path;
      assert guids[i] == prefix[i];
    }
  }

  /** One more visit of a prefab whose contents so far are `current`. */
  lemma PrefabVisitStep(doors: seq<Door>, current: seq<Door>, visited: bool, guid: Guid, oldId: string, newId: string)
    requires current == if visited then RelinkAll(doors, guid, oldId, newId) else doors
    ensures var n := CountMatches(current, guid, oldId);
      (if n > 0 then RelinkAll(current, guid, oldId, newId) else current) == RelinkAll(doors, guid, oldId, newId)
    ensures visited ==> (CountMatches(current, guid, oldId) > 0 ==> CountMatches(doors, guid, oldId) > 0)
    ensures !visited ==> CountMatches(current, guid, oldId) == CountMatches(doors, guid, oldId)
  {
    RelinkAllIdentity(doors, guid, oldId, newId);
    RelinkAllIdempotent(doors, guid, oldId, newId);
    CountAfterRelink(doors, guid, oldId, newId);
    RelinkAllIdentity(current, guid, oldId, newId);
  }

  /** One iteration of `ReplaceReferencesInAllPrefabs`: a prefab at a non-blank path is
      loaded, rewritten, saved when changed and unloaded again. */
  method VisitPrefab(w: World, path: Path, guid: Guid, oldId: string, newId: string, changedLinks: int)
    returns (newChangedLinks: int)
    requires IsBlank(path) || path in w.prefabContents
    modifies w`prefabContents, w`savedPrefabs, w`loadedPrefabs
    ensures w.loadedPrefabs == old(w.loadedPrefabs)
    ensures PrefabPass(w.prefabContents, w.savedPrefabs, newChangedLinks) ==
      PrefabVisit(PrefabPass(old(w.prefabContents), old(w.savedPrefabs), changedLinks), path, guid, oldId, newId)
  {
    newChangedLinks := changedLinks;
    if !IsBlank(path) {
      w.loadedPrefabs := w.loadedPrefabs + [path];
      var doors := w.prefabContents[path];
      var updated, prefabChanged := RelinkDoors(doors, guid, oldId, newId);
      if prefabChanged > 0 {
        w.prefabContents := w.prefabContents[path := updated];
        w.savedPrefabs := w.savedPrefabs + [path];
        newChangedLinks := newChangedLinks + prefabChanged;
      }
      w.loadedPrefabs := w.loadedPrefabs[..|w.loadedPrefabs| - 1];
    }
  }

  /**
   * `ReplaceReferencesInAllPrefabs`: each prefab is loaded, rewritten, saved when changed and
   * always unloaded again.
   */
  method ReplaceReferencesInAllPrefabs(w: World, guid: Guid, oldId: string, newId: string, changedLinks: int)
    returns (newChangedLinks: int)
    requires PrefabsResolve(w.prefabGuids, w.assets, w.prefabContents)
    modifies w`prefabContents, w`savedPrefabs, w`loadedPrefabs
    ensures w.loadedPrefabs == old(w.loadedPrefabs)
    ensures var r := PrefabsPass(w.prefabGuids, w.assets, PrefabPass(old(w.prefabContents), old(w.savedPrefabs), changedLinks),
                                 guid, oldId, newId);
      w.prefabContents == r.prefabs && w.savedPrefabs == r.saved && newChangedLinks == r.changedLinks
  {
    ghost var start := PrefabPass(w.prefabContents, w.savedPrefabs, changedLinks);
    newChangedLinks := changedLinks;
    var prefabGuids := w.prefabGuids;
    var i := 0;
    while i < |prefabGuids|
      invariant 0 <= i <= |prefabGuids|
      invariant w.loadedPrefabs == old(w.loadedPrefabs)
      invariant PrefabsResolve(prefabGuids[..i], w.assets, start.prefabs)
      invariant PrefabPass(w.prefabContents, w.savedPrefabs, newChangedLinks)
        == PrefabsPass(prefabGuids[..i], w.assets, start, guid, oldId, newId)
    {
      PrefabsPassStep(prefabGuids, i, w.assets, start, guid, oldId, newId);
      newChangedLinks := VisitPrefab(w, w.assets.GuidToAssetPath(prefabGuids[i]), guid, oldId, newId, newChangedLinks);
      i := i + 1;
    }
    assert prefabGuids[..|prefabGuids|] == prefabGuids;
  }
}
