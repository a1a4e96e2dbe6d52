/**
 * `SceneReference`: a serialisable reference to a scene asset, made of the scene's GUID (the
 * identity) and a cached path. It is a C# struct, so it is a value here and the setter returns
 * the updated value. A scene asset is represented by its path; `None` is a null asset.
 */
module SceneReferences {
  import opened Wrappers
  import opened Strings
  import opened Assets

  datatype SceneReference = SceneReference(sceneGuid: Guid, scenePath: Path)
  {
    /** No scene is assigned: the GUID is null, empty or white space. */
    predicate IsEmpty() {
      IsBlank(sceneGuid)
    }
  }

  /** Assigns from a scene asset: null clears both fields, otherwise the asset's path and the
      GUID of that same path are stored. */
  function EditorSetFromSceneAsset(r: SceneReference, asset: Option<Path>, db: AssetDb): (s: SceneReference)
    ensures asset.None? ==> s.sceneGuid == "" && s.scenePath == "" && s.IsEmpty()
    ensures asset.Some? ==> s.scenePath == asset.value && s.sceneGuid == db.AssetPathToGuid(asset.value)
  {
    match asset
    case None => r.(sceneGuid := "", scenePath := "")
    case Some(path) => r.(scenePath := path, sceneGuid := db.AssetPathToGuid(path))
  }

  /** Resolves the referenced scene asset: null for an empty reference, for a GUID without a
      path, and for a path that holds no scene asset. */
  function EditorGetSceneAsset(r: SceneReference, db: AssetDb, sceneAssets: set<Path>): (asset: Option<Path>)
    ensures asset.Some? ==> !r.IsEmpty() && asset.value == db.GuidToAssetPath(r.sceneGuid)
    ensures asset.Some? ==> !IsBlank(asset.value) && asset.value in sceneAssets
    ensures asset.None? ==> r.IsEmpty() || IsBlank(db.GuidToAssetPath(r.sceneGuid)) ||
                            db.GuidToAssetPath(r.sceneGuid) !in sceneAssets
  {
    if IsBlank(r.sceneGuid) then None
    else
      var path := db.GuidToAssetPath(r.sceneGuid);
      if IsBlank(path) then None
      else if path in sceneAssets then Some(path)
      else None
  }

  /** Storing a registered scene asset and resolving the reference again gives that asset back. */
  lemma SetThenGet(r: SceneReference, asset: Path, db: AssetDb, sceneAssets: set<Path>)
    requires db.Consistent() && asset in db.pathToGuid && asset in sceneAssets
    ensures EditorGetSceneAsset(EditorSetFromSceneAsset(r, Some(asset), db), db, sceneAssets) == Some(asset)
  {
    PathGuidRoundTrip(db, asset);
  }

  /** Clearing the reference makes it resolve to nothing. */
  lemma ClearThenGet(r: SceneReference, db: AssetDb, sceneAssets: set<Path>)
    ensures EditorGetSceneAsset(EditorSetFromSceneAsset(r, None, db), db, sceneAssets) == None
  {
  }
}
