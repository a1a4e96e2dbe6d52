/**
 * `DoorValidator`: read-only checks of the doors of one scene. A first pass checks each id's
 * format and uniqueness, a second pass checks each link; a door gets at most one link error,
 * the first in the order empty target scene, blank target id, self-link, unknown scene GUID,
 * missing target door.
 */
module DoorValidator {
  import opened Wrappers
  import opened Strings
  import opened Assets
  import opened SceneReferences
  import opened Doors
  import opened DoorUtils
  import opened EditorWorld
  import DoorIdUtils

  /** What went wrong, with the values the message mentions. */
  datatype ErrorKind =
    | InvalidId(doorId: string)
    | DuplicateId(doorId: string, scenePath: Path)
    | NoTargetScene(doorId: string)
    | EmptyTargetDoorId(doorId: string)
    | SelfLink(doorId: string)
    | MissingSceneGuid(doorId: string, targetSceneGuid: Guid)
    | MissingTargetDoor(doorId: string, targetDoorId: string, targetScenePath: Path)
  {
    /** Raised by the id pass rather than the link pass. */
    predicate IsIdKind() {
      InvalidId? || DuplicateId?
    }
  }

  /** `ValidationError`: a message (derived from the kind) and the offending door. */
  datatype ValidationError = ValidationError(kind: ErrorKind, context: Door)

  /** The message of an error: one sentence, ending in a full stop. */
  function Message(e: ValidationError): (r: string)
    ensures |r| > 0 && r[|r| - 1] == '.'
  {
    match e.kind
    case InvalidId(id) => "Door has invalid DoorId '" + id + "'. Allowed [0-9a-zA-Z_-], length 1..64."
    case DuplicateId(id, path) => "Duplicate DoorId '" + id + "' in scene '" + path + "'."
    case NoTargetScene(id) => "Door '" + id + "' has no Target Scene."
    case EmptyTargetDoorId(id) => "Door '" + id + "' has empty Target Door ID."
    case SelfLink(id) => "Door '" + id + "' points to itself. Self-links are not allowed."
    case MissingSceneGuid(id, guid) => "Door '" + id + "' points to missing scene GUID '" + guid + "'."
    case MissingTargetDoor(id, target, path) =>
      "Door '" + id + "' points to missing target door '" + target + "' in scene '" + path + "'."
  }

  /**
   * `IsDoorIdUniqueInScene`: no door of the scene other than `except` (compared as objects)
   * carries `doorId`.
   */
  method IsDoorIdUniqueInScene(contents: SceneContents, scene: Scene, except: Door, doorId: string)
    returns (unique: bool)
    requires CanListDoors(contents, scene)
    ensures unique <==> forall k :: 0 <= k < |SceneDoors(contents, scene)| ==>
      SceneDoors(contents, scene)[k].instanceId == except.instanceId ||
      SceneDoors(contents, scene)[k].doorId != doorId
  {
    var doors := GetDoorsInScene(contents, scene);
    assert doors == SceneDoors(contents, scene);
    var i := 0;
    while i < |doors|
      invariant 0 <= i <= |doors|
      invariant forall k :: 0 <= k < i ==> doors[k].instanceId == except.instanceId || doors[k].doorId != doorId
    {
      var d := doors[i];
      if d.instanceId != except.instanceId && d.doorId == doorId {
        assert !(doors[i].instanceId == except.instanceId || doors[i].doorId != doorId);
        return false;
      }
      i := i + 1;
    }
    return true;
  }

  // ---- The id pass, as functions of the list read so far ----

  /** The valid ids recorded in the map after the doors so far. */
  function SeenIds(doors: seq<Door>): (seen: set<string>)
    ensures forall id :: id in seen ==> DoorIdUtils.IsValidId(id)
  {
    if |doors| == 0 then {}
    else
      var seen := SeenIds(doors[..|doors| - 1]);
      var d := doors[|doors| - 1];
      if DoorIdUtils.IsValidId(d.doorId) then seen + {d.doorId} else seen
  }

  /** The error, if any, the id pass reports for `d` after recording `seen`. */
  function IdErrorFor(d: Door, seen: set<string>, scenePath: Path): seq<ValidationError>
  {
    if !DoorIdUtils.IsValidId(d.doorId) then [ValidationError(InvalidId(d.doorId), d)]
    else if d.doorId in seen then [ValidationError(DuplicateId(d.doorId, scenePath), d)]
    else []
  }

  /** All errors of the id pass, in door order. */
  function IdErrors(doors: seq<Door>, scenePath: Path): (errors: seq<ValidationError>)
    ensures forall k :: 0 <= k < |errors| ==> errors[k].kind.IsIdKind()
    ensures |errors| <= |doors|
    ensures forall k :: 0 <= k < |errors| ==> errors[k].context in doors && errors[k].kind.doorId == errors[k].context.doorId
  {
    if |doors| == 0 then []
    else
      var prefix := doors[..|doors| - 1];
      IdErrors(prefix, scenePath) + IdErrorFor(doors[|doors| - 1], SeenIds(prefix), scenePath)
  }

  // ---- The link pass ----

  /** The GUID of a link resolves to nothing or to a scene asset, so that it can be opened. */
  predicate TargetOpenable(d: Door, db: AssetDb, contents: SceneContents) {
    var path := db.GuidToAssetPath(d.link.targetScene.sceneGuid);
    IsBlank(path) || path in contents
  }

  predicate AllTargetsOpenable(doors: seq<Door>, db: AssetDb, contents: SceneContents) {
    forall k :: 0 <= k < |doors| ==> TargetOpenable(doors[k], db, contents)
  }

  /** Every scene asset's doors link only to blank paths or to scene assets. */
  predicate ScenesOpenable(db: AssetDb, contents: SceneContents) {
    forall p :: p in contents ==> AllTargetsOpenable(Flatten(contents[p]), db, contents)
  }

  /** `SceneContainsDoorId` as a value: the target scene has a door with that id. */
  function TargetHasDoor(contents: SceneContents, path: Path, doorId: string): bool
    requires path in contents
  {
    FindDoorByIdInScene(contents, Scene(path, true, true), doorId).Some?
  }

  /** The one link error of `d`, if any, in the fixed priority order: a link-pass error about
      `d`, naming its id. */
  function LinkError(d: Door, currentSceneGuid: Guid, db: AssetDb, contents: SceneContents): (r: Option<ValidationError>)
    requires TargetOpenable(d, db, contents)
    ensures r.Some? ==> r.value.context == d && !r.value.kind.IsIdKind() && r.value.kind.doorId == d.doorId
  {
    var link := d.link;
    if link.targetScene.IsEmpty() then Some(ValidationError(NoTargetScene(d.doorId), d))
    else if IsBlank(link.targetDoorId) then Some(ValidationError(EmptyTargetDoorId(d.doorId), d))
    else if !IsBlank(currentSceneGuid) && link.targetScene.sceneGuid == currentSceneGuid
         && link.targetDoorId == d.doorId
    then Some(ValidationError(SelfLink(d.doorId), d))
    else
      var targetSceneGuid := link.targetScene.sceneGuid;
      var targetScenePath := db.GuidToAssetPath(targetSceneGuid);
      if IsBlank(targetScenePath) then Some(ValidationError(MissingSceneGuid(d.doorId, targetSceneGuid), d))
      else if !TargetHasDoor(contents, targetScenePath, link.targetDoorId)
      then Some(ValidationError(MissingTargetDoor(d.doorId, link.targetDoorId, targetScenePath), d))
      else None
  }

  function OptionToSeq<T>(o: Option<T>): seq<T> {
    match o
    case None => []
    case Some(v) => [v]
  }

  /** All errors of the link pass, in door order. */
  function LinkErrors(doors: seq<Door>, currentSceneGuid: Guid, db: AssetDb, contents: SceneContents)
    : (errors: seq<ValidationError>)
    requires AllTargetsOpenable(doors, db, contents)
    ensures forall k :: 0 <= k < |errors| ==> !errors[k].kind.IsIdKind()
    ensures |errors| <= |doors|
    ensures forall k :: 0 <= k < |errors| ==> errors[k].context in doors && errors[k].kind.doorId == errors[k].context.doorId
  {
    if |doors| == 0 then []
    else
      var last := doors[|doors| - 1];
      LinkErrors(doors[..|doors| - 1], currentSceneGuid, db, contents)
        + OptionToSeq(LinkError(last, currentSceneGuid, db, contents))
  }

  /** The list `ValidateScene` returns for the doors of a scene: at most two errors per door
      (one from each pass), each about a door of the scene and naming that door's id. */
  function Validation(doors: seq<Door>, scenePath: Path, db: AssetDb, contents: SceneContents)
    : (errors: seq<ValidationError>)
    requires AllTargetsOpenable(doors, db, contents)
    ensures |errors| <= 2 * |doors|
    ensures forall k :: 0 <= k < |errors| ==> errors[k].context in doors && errors[k].kind.doorId == errors[k].context.doorId
  {
    IdErrors(doors, scenePath) + LinkErrors(doors, GetSceneGuid(db, scenePath), db, contents)
  }

  /**
   * `SceneContainsDoorId`: runs the lookup inside `ExecuteInScene`, so the scene is opened and
   * closed again when it was not loaded. A blank path never contains a door.
   */
  method SceneContainsDoorId(w: World, scenePath: Path, doorId: string) returns (found: bool)
    requires w.Valid()
    requires !IsBlank(scenePath) ==> scenePath in w.sceneContents
    modifies w`hierarchy
    ensures w.Valid() && w.hierarchy == old(w.hierarchy)
    ensures found <==> !IsBlank(scenePath) && TargetHasDoor(w.sceneContents, scenePath, doorId)
  {
    var contents := w.sceneContents;
    var r := w.ExecuteInScene(scenePath,
      (s: Scene) requires doorId == "" || CanListDoors(contents, s) => FindDoorByIdInScene(contents, s, doorId).Some?);
    found := r == Some(true);
  }

  /** The first loop of `ValidateScene`: format errors, and duplicates of ids already recorded. */
  method IdPass(doors: seq<Door>, scenePath: Path) returns (errors: seq<ValidationError>)
    ensures errors == IdErrors(doors, scenePath)
  {
    errors := [];
    var map_: map<string, Door> := map[];
    var i := 0;
    while i < |doors|
      invariant 0 <= i <= |doors|
      invariant map_.Keys == SeenIds(doors[..i])
      invariant errors == IdErrors(doors[..i], scenePath)
    {
      var door := doors[i];
      assert doors[..i + 1][..i] == doors[..i];
      if !DoorIdUtils.IsValidId(door.doorId) {
        errors := errors + [ValidationError(InvalidId(door.doorId), door)];
      } else if door.doorId in map_ {
        errors := errors + [ValidationError(DuplicateId(door.doorId, scenePath), door)];
      } else {
        map_ := map_[door.doorId := door];
      }
      i := i + 1;
    }
    assert doors[..|doors|] == doors;
  }

  /** One step of the second loop of `ValidateScene`: the link checks of one door. */
  method CheckLink(w: World, door: Door, currentSceneGuid: Guid) returns (error: Option<ValidationError>)
    requires w.Valid() && TargetOpenable(door, w.assets, w.sceneContents)
    modifies w`hierarchy
    ensures w.Valid() && w.hierarchy == old(w.hierarchy)
    ensures error == LinkError(door, currentSceneGuid, w.assets, w.sceneContents)
  {
    var link := door.link;
    if link.targetScene.IsEmpty() {
      return Some(ValidationError(NoTargetScene(door.doorId), door));
    }
    if IsBlank(link.targetDoorId) {
      return Some(ValidationError(EmptyTargetDoorId(door.doorId), door));
    }
    if !IsBlank(currentSceneGuid) && link.targetScene.sceneGuid == currentSceneGuid
       && link.targetDoorId == door.doorId {
      return Some(ValidationError(SelfLink(door.doorId), door));
    }
    var targetSceneGuid := link.targetScene.sceneGuid;
    var targetScenePath := w.assets.GuidToAssetPath(targetSceneGuid);
    if IsBlank(targetScenePath) {
      return Some(ValidationError(MissingSceneGuid(door.doorId, targetSceneGuid), door));
    }
    var found := SceneContainsDoorId(w, targetScenePath, link.targetDoorId);
    if !found {
      return Some(ValidationError(MissingTargetDoor(door.doorId, link.targetDoorId, targetScenePath), door));
    }
    return None;
  }

  /** The second loop of `ValidateScene`: at most one link error per door. */
  method LinkPass(w: World, doors: seq<Door>, currentSceneGuid: Guid) returns (errors: seq<ValidationError>)
    requires w.Valid() && AllTargetsOpenable(doors, w.assets, w.sceneContents)
    modifies w`hierarchy
    ensures w.Valid() && w.hierarchy == old(w.hierarchy)
    ensures errors == LinkErrors(doors, currentSceneGuid, w.assets, w.sceneContents)
  {
    errors := [];
    var i := 0;
    while i < |doors|
      invariant 0 <= i <= |doors|
      invariant w.Valid() && w.hierarchy == old(w.hierarchy)
      invariant errors == LinkErrors(doors[..i], currentSceneGuid, w.assets, w.sceneContents)
    {
      LinkErrorsStep(doors, i, currentSceneGuid, w.assets, w.sceneContents);
      var error := CheckLink(w, doors[i], currentSceneGuid);
      errors := errors + OptionToSeq(error);
      i := i + 1;
    }
    assert doors[..|doors|] == doors;
  }

  /** The link errors of one more door are those of the doors before it followed by its own. */
  lemma LinkErrorsStep(doors: seq<Door>, i: nat, currentSceneGuid: Guid, db: AssetDb, contents: SceneContents)
    requires i < |doors| && AllTargetsOpenable(doors, db, contents)
    ensures AllTargetsOpenable(doors[..i], db, contents) && AllTargetsOpenable(doors[..i + 1], db, contents)
    ensures TargetOpenable(doors[i], db, contents)
    ensures LinkErrors(doors[..i + 1], currentSceneGuid, db, contents) ==
      LinkErrors(doors[..i], currentSceneGuid, db, contents) + OptionToSeq(LinkError(doors[i], currentSceneGuid, db, contents))
  {
    assert doors[..i + 1][..i] == doors[..i];
    assert doors[..i + 1][i] == doors[i];
  }

  /**
   * `ValidateScene`: the id pass over the scene's doors, then the link pass, in one list. The
   * hierarchy is the same afterwards: every scene opened to look up a target door is closed.
   */
  method ValidateScene(w: World, scene: Scene) returns (errors: seq<ValidationError>)
    requires w.Valid()
    requires CanListDoors(w.sceneContents, scene)
    requires AllTargetsOpenable(SceneDoors(w.sceneContents, scene), w.assets, w.sceneContents)
    modifies w`hierarchy
    ensures w.Valid() && w.hierarchy == old(w.hierarchy)
    ensures errors == Validation(SceneDoors(w.sceneContents, scene), scene.path, w.assets, w.sceneContents)
  {
    var doors := GetDoorsInScene(w.sceneContents, scene);
    var idErrors := IdPass(doors, scene.path);
    var currentSceneGuid := GetSceneGuid(w.assets, scene.path);
    var linkErrors := LinkPass(w, doors, currentSceneGuid);
    errors := idErrors + linkErrors;
  }

  // ---- Properties of the two passes ----

  /** Number of doors carrying `id`. */
  function CountId(doors: seq<Door>, id: string): nat
  {
    if |doors| == 0 then 0
    else CountId(doors[..|doors| - 1], id) + (if doors[|doors| - 1].doorId == id then 1 else 0)
  }

  /** Number of duplicate-id errors about `id`. */
  function DuplicatesOf(errors: seq<ValidationError>, id: string): nat
  {
    if |errors| == 0 then 0
    else
      var e := errors[|errors| - 1];
      DuplicatesOf(errors[..|errors| - 1], id) + (if e.kind.DuplicateId? && e.kind.doorId == id then 1 else 0)
  }

  lemma {:induction false} DuplicatesOfAppend(a: seq<ValidationError>, b: seq<ValidationError>, id: string)
    ensures DuplicatesOf(a + b, id) == DuplicatesOf(a, id) + DuplicatesOf(b, id)
    decreases |b|
  {
    if |b| == 0 {
      assert a + b == a;
    } else {
      assert (a + b)[..|a + b| - 1] == a + b[..|b| - 1];
      DuplicatesOfAppend(a, b[..|b| - 1], id);
    }
  }

  /** A valid id has been recorded exactly when some door so far carries it. */
  lemma {:induction false} SeenIdsCount(doors: seq<Door>, id: string)
    requires DoorIdUtils.IsValidId(id)
    ensures id in SeenIds(doors) <==> CountId(doors, id) > 0
  {
    if |doors| > 0 {
      SeenIdsCount(doors[..|doors| - 1], id);
    }
  }

  lemma DuplicateTail(d: Door, seen: set<string>, scenePath: Path, id: string)
    requires DoorIdUtils.IsValidId(id)
    ensures DuplicatesOf(IdErrorFor(d, seen, scenePath), id) == if d.doorId == id && id in seen then 1 else 0
  {
    var tail := IdErrorFor(d, seen, scenePath);
    if |tail| == 1 {
      assert tail[..0] == [];
    }
  }

  /** `k` doors sharing a valid id yield exactly `k - 1` duplicate errors for it. */
  lemma {:induction false} DuplicateErrorCount(doors: seq<Door>, scenePath: Path, id: string)
    requires DoorIdUtils.IsValidId(id)
    ensures DuplicatesOf(IdErrors(doors, scenePath), id) ==
      if CountId(doors, id) == 0 then 0 else CountId(doors, id) - 1
  {
    if |doors| > 0 {
      var prefix := doors[..|doors| - 1];
      var tail := IdErrorFor(doors[|doors| - 1], SeenIds(prefix), scenePath);
      DuplicateErrorCount(prefix, scenePath, id);
      SeenIdsCount(prefix, id);
      DuplicatesOfAppend(IdErrors(prefix, scenePath), tail, id);
      DuplicateTail(doors[|doors| - 1], SeenIds(prefix), scenePath, id);
    }
  }

  /** The doors whose id fails the format rule, in order. */
  function InvalidDoors(doors: seq<Door>): seq<Door>
  {
    if |doors| == 0 then []
    else
      var d := doors[|doors| - 1];
      InvalidDoors(doors[..|doors| - 1]) + (if DoorIdUtils.IsValidId(d.doorId) then [] else [d])
  }

  /** The doors named by format errors, in order. */
  function InvalidIdContexts(errors: seq<ValidationError>): seq<Door>
  {
    if |errors| == 0 then []
    else
      var e := errors[|errors| - 1];
      InvalidIdContexts(errors[..|errors| - 1]) + (if e.kind.InvalidId? then [e.context] else [])
  }

  lemma {:induction false} InvalidIdContextsAppend(a: seq<ValidationError>, b: seq<ValidationError>)
    ensures InvalidIdContexts(a + b) == InvalidIdContexts(a) + InvalidIdContexts(b)
    decreases |b|
  {
    if |b| == 0 {
      assert a + b == a;
    } else {
      assert (a + b)[..|a + b| - 1] == a + b[..|b| - 1];
      InvalidIdContextsAppend(a, b[..|b| - 1]);
    }
  }

  /** Every door with a malformed id gets exactly one format error, in door order, and no
      other door gets one. */
  lemma {:induction false} InvalidIdErrors(doors: seq<Door>, scenePath: Path)
    ensures InvalidIdContexts(IdErrors(doors, scenePath)) == InvalidDoors(doors)
  {
    if |doors| > 0 {
      var prefix := doors[..|doors| - 1];
      var tail := IdErrorFor(doors[|doors| - 1], SeenIds(prefix), scenePath);
      InvalidIdErrors(prefix, scenePath);
      InvalidIdContextsAppend(IdErrors(prefix, scenePath), tail);
      if |tail| == 1 {
        assert tail[..0] == [];
      }
    }
  }

  /** In the list `ValidateScene` returns, every id-pass error comes before every link error. */
  lemma IdErrorsFirst(doors: seq<Door>, scenePath: Path, db: AssetDb, contents: SceneContents)
    requires AllTargetsOpenable(doors, db, contents)
    ensures var errors := Validation(doors, scenePath, db, contents);
      forall i, j :: 0 <= i < j < |errors| && errors[j].kind.IsIdKind() ==> errors[i].kind.IsIdKind()
  {
    var ids := IdErrors(doors, scenePath);
    var links := LinkErrors(doors, GetSceneGuid(db, scenePath), db, contents);
    var errors := ids + links;
    forall i, j | 0 <= i < j < |errors| && errors[j].kind.IsIdKind()
      ensures errors[i].kind.IsIdKind()
    {
      if j < |ids| {
        assert errors[i] == ids[i];
      }
    }
  }

  /** A door without a target scene gets that error and no other link error. */
  lemma NoTargetSceneOnly(d: Door, currentSceneGuid: Guid, db: AssetDb, contents: SceneContents)
    requires TargetOpenable(d, db, contents) && d.link.targetScene.IsEmpty()
    ensures LinkError(d, currentSceneGuid, db, contents) == Some(ValidationError(NoTargetScene(d.doorId), d))
  {
  }

  /**
   * Past the first two checks, a door is reported as a self-link exactly when the current
   * scene's GUID is non-blank and the link names that GUID and the door's own id; such a door
   * is never reported as missing its target.
   */
  lemma SelfLinkRule(d: Door, currentSceneGuid: Guid, db: AssetDb, contents: SceneContents)
    requires TargetOpenable(d, db, contents)
    requires !d.link.targetScene.IsEmpty() && !IsBlank(d.link.targetDoorId)
    ensures var e := LinkError(d, currentSceneGuid, db, contents);
      (e.Some? && e.value.kind.SelfLink?) <==>
      (!IsBlank(currentSceneGuid) && d.link.targetScene.sceneGuid == currentSceneGuid &&
       d.link.targetDoorId == d.doorId)
  {
  }

  /** A door whose link resolves to an existing door of an existing scene gets no link error. */
  lemma SoundLinkHasNoError(d: Door, currentSceneGuid: Guid, db: AssetDb, contents: SceneContents, k: nat)
    requires TargetOpenable(d, db, contents)
    requires !d.link.targetScene.IsEmpty() && !IsBlank(d.link.targetDoorId)
    requires IsBlank(currentSceneGuid) || d.link.targetScene.sceneGuid != currentSceneGuid ||
             d.link.targetDoorId != d.doorId
    requires !IsBlank(db.GuidToAssetPath(d.link.targetScene.sceneGuid))
    requires var doors := Flatten(contents[db.GuidToAssetPath(d.link.targetScene.sceneGuid)]);
      k < |doors| && doors[k].doorId == d.link.targetDoorId
    ensures LinkError(d, currentSceneGuid, db, contents).None?
  {
    var path := db.GuidToAssetPath(d.link.targetScene.sceneGuid);
    var doors := Flatten(contents[path]);
    assert doors == SceneDoors(contents, Scene(path, true, true));
    assert d.link.targetDoorId != "";
    FindDoorByIdMisses(contents, Scene(path, true, true), d.link.targetDoorId);
  }
}
