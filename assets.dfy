/**
 * The editor's asset database, reduced to what the door tools ask of it: the two-way mapping
 * between asset GUIDs and project paths. An unknown GUID or path maps to the empty string, as
 * `AssetDatabase.GUIDToAssetPath` and `AssetDatabase.AssetPathToGUID` do.
 */
module Assets {
  import opened Strings

  type Guid = string
  type Path = string

  datatype AssetDb = AssetDb(guidToPath: map<Guid, Path>, pathToGuid: map<Path, Guid>)
  {
    function GuidToAssetPath(guid: Guid): (path: Path)
      ensures guid !in guidToPath ==> path == ""
      ensures guid in guidToPath ==> path == guidToPath[guid]
    {
      if guid in guidToPath then guidToPath[guid] else ""
    }

    function AssetPathToGuid(path: Path): (guid: Guid)
      ensures path !in pathToGuid ==> guid == ""
      ensures path in pathToGuid ==> guid == pathToGuid[path]
    {
      if path in pathToGuid then pathToGuid[path] else ""
    }

    /** Registered paths and GUIDs are non-blank and the two maps are inverse to each other. */
    predicate Consistent() {
      (forall p :: p in pathToGuid ==>
        !IsBlank(p) && !IsBlank(pathToGuid[p]) &&
        pathToGuid[p] in guidToPath && guidToPath[pathToGuid[p]] == p) &&
      (forall g :: g in guidToPath ==>
        guidToPath[g] in pathToGuid && pathToGuid[guidToPath[g]] == g)
    }
  }

  /** In a consistent database a registered path survives the round trip through its GUID. */
  lemma PathGuidRoundTrip(db: AssetDb, path: Path)
    requires db.Consistent() && path in db.pathToGuid
    ensures !IsBlank(db.AssetPathToGuid(path))
    ensures db.GuidToAssetPath(db.AssetPathToGuid(path)) == path
  {
  }
}
