# Door links, state machines and gameplay components of a Unity platformer, in Dafny

This project models the core of a small Unity 2D platformer and of its editor tooling.

**The door-link subsystem.** A `Door` carries a stable string id and a `DoorLink`. The link
pairs a `SceneReference` (a scene GUID plus a cached path) with the id of the target door. The
model covers:

- the id rules of `DoorIdUtils`: the random generator and the format check;
- `Door.OnValidate`, which assigns ids automatically;
- the runtime lookups of `DoorUtils`;
- `DoorEditorUtils.ExecuteInScene`, which opens a scene if needed and always closes it again;
- the two-pass validator `DoorValidator.ValidateScene`;
- the rename of `DoorChangeIdWindow.Apply`. Every guard runs first. Then `DoorProjectUpdater`
  rewrites links in the open scenes and afterwards in the prefab assets, and last the door's
  own id changes;
- the two-second `SceneDoorCache`, whose listing is sorted by id;
- the three gates that consume the validator: the build preprocessor, the play-mode check and
  the menu entry.

The editor's state is one `World` object (`editor_world.dfy`). It holds:

- the asset database, as a two-way GUID/path map;
- the stored contents of every scene asset;
- the scenes listed in the hierarchy, each valid or not and loaded or not;
- the dirty scenes;
- the prefab assets with their doors, and the prefabs saved and loaded.

Doors are values held inside the scene or prefab that contains them. Writing to a door's field
replaces that value in its container.

**The game-side components.** The model also covers:

- the generic finite state machine `SimpleStateMachine<TState>`, with the scenarios of its unit
  tests and Sharky's three-state instance;
- `StateMachineService`, which prunes machines whose owner is gone and updates the others;
- the ping-pong waypoint walk of `GroundPatrolPath`;
- the sprite index and array resize of `PatternGridTile`;
- the bit test of `LayerMaskExtensions.Contains`;
- the health and invulnerability state of `Damageable`;
- `SafePointTracker`;
- the frame counters of `SimpleSpriteAnimator` and `MultiStateSpriteAnimator`;
- the notify-on-change setters of `InteractableBase` and `Switchable`, and the fan-out of
  `Switch`;
- two generators of the next numeric suffix: `SceneNoteMenu.GetNextNoteName` and
  `ObjectBrushWindow.GetNextInstanceIndex`;
- the hierarchy-path helpers and the palette selection bookkeeping of `ObjectBrushWindow`.

Components whose fields the source updates in place are classes with `modifies` frames. Each
loop of the source is a method with its invariants, proved against a specification function.
Pure computations are functions, and lemmas relate them.

Some conventions hold throughout:

- A null string is the empty string. Every null check in the source treats the two alike.
- `float` times and health values are `real`.
- Engine services are plain state or parameters: `Time.deltaTime`, `timeSinceStartup`,
  `EditorPrefs`, `Application.isPlaying`, the random draws, and which owners are still alive.
- Log output and dialogs are values the methods return.

## Model

| member | source | states |
|---|---|---|
| Assets.AssetDb.GuidToAssetPath | Assets/Scripts/Doors/SceneReference.cs:58 | `AssetDatabase.GUIDToAssetPath`: an unknown GUID maps to the empty path, a known one to its registered path |
| Assets.AssetDb.AssetPathToGuid | Assets/Editor/Doors/DoorEditorUtils.cs:20 | `AssetDatabase.AssetPathToGUID`: an unknown path maps to the empty GUID, a known one to its registered GUID |
| Assets.PathGuidRoundTrip | Assets/Scripts/Doors/SceneReference.cs:46-47 | in a consistent database, a registered path has a non-blank GUID, and that GUID maps back to the path |
| Strings.TrimStart | Assets/Editor/Doors/DoorChangeIdWindow.cs:60 | the result is a suffix of the input; everything dropped is white space; the result does not start with white space |
| Strings.TrimEnd | Assets/Editor/Doors/DoorChangeIdWindow.cs:60 | the result is a prefix of the input; everything dropped is white space; the result does not end with white space |
| Strings.Trim | Assets/Editor/Doors/DoorChangeIdWindow.cs:60 | `string.Trim()`: the result is a stretch of the input with only white space before and after it |
| Strings.TrimPieces | Assets/Editor/Doors/DoorChangeIdWindow.cs:60 | trimming the start and then the end leaves the stretch of the input between the white space dropped on either side |
| Strings.TrimSpec | Assets/Editor/Doors/DoorChangeIdWindow.cs:60 | `Trim` leaves no white space at either end, and it gives the empty string exactly for a null, empty or white-space-only string |
| Strings.OrdinalLeTotal | Assets/Editor/Doors/SceneDoorCache.cs:101 | any two strings are comparable in the ordinal order the listing sorts by |
| Strings.OrdinalLeTransitive | Assets/Editor/Doors/SceneDoorCache.cs:101 | the ordinal order is transitive |
| Strings.OrdinalLeAntisymmetric | Assets/Editor/Doors/SceneDoorCache.cs:101 | two strings ordered both ways are equal |
| Strings.Split | Assets/Editor/ObjectBrush/ObjectBrushWindow.cs:264 | `string.Split` on one character never returns an empty list, and no piece contains the separator |
| Strings.Join | Assets/Editor/ObjectBrush/ObjectBrushWindow.cs:256 | `string.Join` with one separator: the result starts with the first part, followed by the separator when there are more parts |
| Strings.JoinSnoc | Assets/Editor/ObjectBrush/ObjectBrushWindow.cs:256 | joining one more part appends the separator and that part |
| Strings.Lines | Assets/Editor/Doors/DoorBuildValidator.cs:30 | `StringBuilder.AppendLine` of each string: empty for no strings, otherwise ending with the last string and a line break |
| Strings.LinesIsJoin | Assets/Editor/Doors/DoorBuildValidator.cs:30 | the appended lines are the strings joined by line breaks, with an empty rest after the last one |
| Strings.LinesSplit | Assets/Editor/Doors/DoorBuildValidator.cs:30 | strings without line breaks come back, one per line, when their lines are split at the line breaks |
| Strings.SplitJoin | Assets/Editor/ObjectBrush/ObjectBrushWindow.cs:256-264 | splitting a joined list gives the list back when no part contains the separator |
| Decimal.Wrap32 | Assets/Editor/SceneNoteMenu.cs:49 | unchecked C# `int` arithmetic: the result lies in the `int` range and is congruent to the exact value modulo 2^32 |
| Decimal.Wrap32Overflow | Assets/Editor/SceneNoteMenu.cs:49 | `int.MaxValue + 1` wraps to `int.MinValue` |
| Decimal.ParseInt32 | Assets/Editor/SceneNoteMenu.cs:43 | `int.TryParse` on an optional sign followed by ASCII digits: succeeds exactly on such a text whose value lies in the `int` range, with that value |
| Decimal.ParseInteger | Assets/Editor/SceneNoteMenu.cs:43 | an optional `-` or `+` followed by at least one digit reads as its signed value; any other text has no value |
| Decimal.DecimalString | Assets/Editor/ObjectBrush/ObjectBrushWindow.cs:580 | `int.ToString()` of a non-negative number: at least one digit and no leading zero |
| Decimal.DecimalStringValue | Assets/Editor/ObjectBrush/ObjectBrushWindow.cs:580 | the digits of `ToString()` read back as the number |
| Decimal.FormatD2Digits | Assets/Editor/SceneNoteMenu.cs:49 | the `:D2` format of a non-negative number has at least two digits, and their value is the number |
| Decimal.FormatD2Parses | Assets/Editor/SceneNoteMenu.cs:43-49 | an `int` formatted `:D2`, negative ones included, parses back to itself with `int.TryParse` |
| Decimal.FormatD2Integer | Assets/Editor/SceneNoteMenu.cs:49 | every integer formatted `:D2` reads back as itself: at least two digits, after a minus sign when negative |
| Decimal.IntString | Assets/Editor/ObjectBrush/ObjectBrushWindow.cs:935-937 | `int.ToString()`: the decimal digits of a non-negative number, and a minus sign before the digits of a negative one |
| Decimal.IntStringParses | Assets/Editor/ObjectBrush/ObjectBrushWindow.cs:935-937 | `ToString()` reads back as the number, and as an `int` when it is one |
| DoorIdUtils.AlphabetSpelledOut | Assets/Scripts/Doors/DoorIdUtils.cs:12 | the generator's alphabet is the 36 characters `0-9a-z` |
| DoorIdUtils.ClampLength | Assets/Scripts/Doors/DoorIdUtils.cs:22-28 | the requested length is forced into [1, 64]; a length already in range is kept; a length too small gives 1; a length too large gives 64 |
| DoorIdUtils.GenerateId | Assets/Scripts/Doors/DoorIdUtils.cs:21-41 | for every requested length, the id has exactly the clamped length, every character comes from the alphabet, and the id passes `IsValidId` |
| DoorIdUtils.AlphabetStringValid | Assets/Scripts/Doors/DoorIdUtils.cs:46-71 | every string of 1 to 64 alphabet characters is a valid id |
| DoorIdUtils.IdCharsFrom | Assets/Scripts/Doors/DoorIdUtils.cs:55-70 | the character loop accepts exactly when every character from the given position on is in `[0-9a-zA-Z_-]` |
| DoorIdUtils.IsValidId | Assets/Scripts/Doors/DoorIdUtils.cs:46-71 | accepts exactly the strings of length 1..64 made only of `[0-9a-zA-Z_-]`, so it rejects null, empty and overlong strings |
| DoorIdUtils.ValidConcat | Assets/Scripts/Doors/Door.cs:84 | a valid prefix followed by a generated part is valid while the total length stays within 64 |
| SceneReferences.EditorSetFromSceneAsset | Assets/Scripts/Doors/SceneReference.cs:39-48 | a null asset clears both the GUID and the path, so the reference is empty; otherwise it stores the asset's path and the GUID of that same path |
| SceneReferences.EditorGetSceneAsset | Assets/Scripts/Doors/SceneReference.cs:53-64 | a found asset belongs to a non-empty reference and is the scene asset at the GUID's path; null exactly for an empty reference, a GUID with a blank path, or a path that holds no scene asset |
| SceneReferences.SetThenGet | Assets/Scripts/Doors/SceneReference.cs:39-64 | storing a registered scene asset and resolving the reference again gives that asset back |
| SceneReferences.ClearThenGet | Assets/Scripts/Doors/SceneReference.cs:39-64 | after clearing the reference, it resolves to null |
| Doors.GetEntryPosition | Assets/Scripts/Doors/Door.cs:37-43 | the entry point's position when one is set, otherwise the door's own position |
| Doors.EditorSetDoorId | Assets/Scripts/Doors/Door.cs:89-91 | the id becomes exactly the argument, without validation, and every other field of the door stays |
| Doors.OnValidate | Assets/Scripts/Doors/Door.cs:62-87 | nothing changes in play mode; a prefab-asset door ends with the empty id and is marked dirty only if its id was not already empty; an instance whose id is blank or equals its source prefab's id gets `Door_` plus five generated characters and is marked dirty; any other door is untouched |
| Doors.AutoIdFromSuffix | Assets/Scripts/Doors/Door.cs:84 | `Door_` followed by a generated five-character part has the shape of an automatic id: length 10, and valid |
| DoorUtils.GetDoorsInScene | Assets/Scripts/Doors/DoorUtils.cs:14-26 | an invalid scene gives no doors; a valid scene gives every root's doors, inactive ones included, concatenated in root order |
| DoorUtils.SceneDoors | Assets/Scripts/Doors/DoorUtils.cs:14-26 | no doors for an invalid scene; for a valid one, every door under every root, inactive ones included |
| DoorUtils.FlattenHas | Assets/Scripts/Doors/DoorUtils.cs:19-24 | every door under every root is in the collected list |
| DoorUtils.FlattenAppend | Assets/Scripts/Doors/DoorUtils.cs:21-23 | adding a root appends that root's doors to the list |
| DoorUtils.FirstWithId | Assets/Scripts/Doors/DoorUtils.cs:37-43 | the index of the first door whose id is ordinally equal to the given id; none exactly when no door carries that id |
| DoorUtils.FindDoorByIdInScene | Assets/Scripts/Doors/DoorUtils.cs:31-44 | null for a null or empty id; otherwise the first door in list order carrying the id; any door found carries the requested id |
| DoorUtils.FindDoorByIdMisses | Assets/Scripts/Doors/DoorUtils.cs:36-43 | for a non-empty id, the lookup returns null exactly when no door of the scene carries the id |
| EditorWorld.GetSceneGuid | Assets/Editor/Doors/DoorEditorUtils.cs:15-21 | the empty GUID for a blank path, otherwise the path's GUID |
| EditorWorld.FirstSlot | Assets/Editor/Doors/SceneDoorCache.cs:74 | the first hierarchy slot that holds the path; none exactly when no slot holds it |
| EditorWorld.World.GetSceneByPath | Assets/Editor/Doors/DoorEditorUtils.cs:32 | `SceneManager.GetSceneByPath`: the first hierarchy slot with that path, or the invalid scene when there is none |
| EditorWorld.World.Acquire | Assets/Editor/Doors/DoorEditorUtils.cs:32-37 | an already loaded scene is used as it is; any other scene is opened additively as a new loaded slot; the flag records which happened |
| EditorWorld.World.Release | Assets/Editor/Doors/DoorEditorUtils.cs:42-46 | only a scene opened by this call is closed, which removes its slot; otherwise the hierarchy is untouched |
| EditorWorld.World.ExecuteInScene | Assets/Editor/Doors/DoorEditorUtils.cs:27-47 | nothing happens for a blank path; otherwise the action runs exactly once on the loaded scene, and the hierarchy ends as it began |
| EditorWorld.World.MarkSceneDirty | Assets/Editor/Doors/DoorProjectUpdater.cs:29 | the scene joins the set of dirty scenes, and nothing else changes |
| DoorValidator.IsDoorIdUniqueInScene | Assets/Editor/Doors/DoorValidator.cs:29-43 | true exactly when no door of the scene other than `except` (compared as objects) has an ordinally equal id |
| DoorValidator.SeenIds | Assets/Editor/Doors/DoorValidator.cs:53-72 | the id map holds only valid ids |
| DoorValidator.Message | Assets/Editor/Doors/DoorValidator.cs:61-115 | every message is a sentence ending in a full stop |
| DoorValidator.IdErrors | Assets/Editor/Doors/DoorValidator.cs:54-73 | the id pass raises only format or duplicate errors, at most one per door, each about a door of the list and naming its id |
| DoorValidator.LinkErrors | Assets/Editor/Doors/DoorValidator.cs:77-118 | the link pass raises only link errors, at most one per door, each about a door of the list and naming its id |
| DoorValidator.LinkError | Assets/Editor/Doors/DoorValidator.cs:83-117 | a door's link error, when it has one, is a link-pass error about that door and names its id |
| DoorValidator.Validation | Assets/Editor/Doors/DoorValidator.cs:48-121 | at most two errors per door, one from each pass, each about a door of the scene and naming that door's id |
| DoorValidator.SceneContainsDoorId | Assets/Editor/Doors/DoorValidator.cs:123-129 | true exactly when the path is non-blank and the scene there has a door with that id; the hierarchy is the same afterwards |
| DoorValidator.IdPass | Assets/Editor/Doors/DoorValidator.cs:54-73 | the first loop, with its id map, produces exactly the id-pass errors of the doors, in order |
| DoorValidator.CheckLink | Assets/Editor/Doors/DoorValidator.cs:83-117 | one door's link checks produce exactly its one link error in priority order, or none; the hierarchy is the same afterwards |
| DoorValidator.LinkPass | Assets/Editor/Doors/DoorValidator.cs:77-118 | the second loop produces exactly the link errors of the doors, in door order, and leaves the hierarchy as it was |
| DoorValidator.LinkErrorsStep | Assets/Editor/Doors/DoorValidator.cs:77-118 | the link errors of one more door are those of the doors before it followed by its own |
| DoorValidator.ValidateScene | Assets/Editor/Doors/DoorValidator.cs:48-121 | the id-pass errors of the scene's doors followed by their link errors; every scene opened to look up a target is closed again |
| DoorValidator.SeenIdsCount | Assets/Editor/Doors/DoorValidator.cs:68-72 | a valid id is in the map exactly when some door so far carries it |
| DoorValidator.DuplicateTail | Assets/Editor/Doors/DoorValidator.cs:68-72 | one door adds a duplicate error about an id exactly when it carries that id and the id is already in the map |
| DoorValidator.DuplicateErrorCount | Assets/Editor/Doors/DoorValidator.cs:68-72 | k doors sharing a valid id give exactly k - 1 duplicate errors for it |
| DoorValidator.InvalidIdErrors | Assets/Editor/Doors/DoorValidator.cs:60-66 | the format errors name exactly the doors with an invalid id, one each, in order |
| DoorValidator.IdErrorsFirst | Assets/Editor/Doors/DoorValidator.cs:54-118 | in the list `ValidateScene` returns, every id-pass error comes before every link error |
| DoorValidator.NoTargetSceneOnly | Assets/Editor/Doors/DoorValidator.cs:85-88 | a door without a target scene gets the "no Target Scene" error and no other link error |
| DoorValidator.SelfLinkRule | Assets/Editor/Doors/DoorValidator.cs:95-101 | past the first two checks, a door is reported as a self-link exactly when the current scene's GUID is non-blank and the link names that GUID and the door's own id |
| DoorValidator.SoundLinkHasNoError | Assets/Editor/Doors/DoorValidator.cs:77-118 | a door that links to an existing door of another existing scene gets no link error |
| DoorProjectUpdater.RelinkFields | Assets/Editor/Doors/DoorProjectUpdater.cs:120-126 | only a link naming the target scene GUID and the old id gets the new id; every other field of every door stays |
| DoorProjectUpdater.RelinkAll | Assets/Editor/Doors/DoorProjectUpdater.cs:99-127 | every door of the list is rewritten in place, and the length is kept |
| DoorProjectUpdater.RelinkRoots | Assets/Editor/Doors/DoorProjectUpdater.cs:97-127 | every root of a scene is rewritten, and the number of roots is kept |
| DoorProjectUpdater.CountMatchesZero | Assets/Editor/Doors/DoorProjectUpdater.cs:120-126 | no link is rewritten exactly when no door matches |
| DoorProjectUpdater.RelinkAllIdempotent | Assets/Editor/Doors/DoorProjectUpdater.cs:120-126 | rewriting twice is the same as rewriting once |
| DoorProjectUpdater.RelinkAllIdentity | Assets/Editor/Doors/DoorProjectUpdater.cs:120-126 | the rewrite leaves a list as it was exactly when the ids are equal or nothing matches |
| DoorProjectUpdater.CountAfterRelink | Assets/Editor/Doors/DoorProjectUpdater.cs:120-126 | after a rename to a different id, no link names the old id any more |
| DoorProjectUpdater.RelinkRoundTrip | Assets/Editor/Doors/DoorProjectUpdater.cs:120-126 | renaming A to B and then B to A restores every link, provided no link named B before |
| DoorProjectUpdater.FlattenRelinkRoots | Assets/Editor/Doors/DoorProjectUpdater.cs:97-127 | rewriting a scene root by root is rewriting its door list |
| DoorProjectUpdater.RelinkRootsIdempotent | Assets/Editor/Doors/DoorProjectUpdater.cs:97-127 | rewriting a scene twice is rewriting it once |
| DoorProjectUpdater.RelinkDoors | Assets/Editor/Doors/DoorProjectUpdater.cs:99-127 | the per-door loop rewrites exactly the matching links and returns how many it rewrote |
| DoorProjectUpdater.ReplaceInScene | Assets/Editor/Doors/DoorProjectUpdater.cs:94-130 | the open scene's doors are rewritten, no other scene changes, and the result is the number of links rewritten |
| DoorProjectUpdater.SceneVisit | Assets/Editor/Doors/DoorProjectUpdater.cs:21-30 | one slot's visit keeps the set of scenes, never lowers the running count, and never clears a dirty flag |
| DoorProjectUpdater.OpenScenesPass | Assets/Editor/Doors/DoorProjectUpdater.cs:20-31 | the pass over the slots keeps the set of scenes, never lowers `changedLinks`, and never clears a dirty flag |
| DoorProjectUpdater.OpenScenesPassStep | Assets/Editor/Doors/DoorProjectUpdater.cs:20-31 | the pass over one more slot is one more visit |
| DoorProjectUpdater.OpenScenesPassEffect | Assets/Editor/Doors/DoorProjectUpdater.cs:20-31 | afterwards each valid, loaded scene is rewritten and every other scene is untouched; a scene is newly dirty exactly when it is loaded and had a matching link; `changedLinks` grows by exactly `LoadedMatches`, the links rewritten |
| DoorProjectUpdater.RevisitCount | Assets/Editor/Doors/DoorProjectUpdater.cs:20-31 | a scene met again after its rewrite has no link left to rewrite, unless the id is unchanged |
| DoorProjectUpdater.LoadedInStep | Assets/Editor/Doors/DoorProjectUpdater.cs:20-24 | a scene is loaded in the slots exactly when it is loaded in all but the last slot or in the last one |
| DoorProjectUpdater.SceneVisitStep | Assets/Editor/Doors/DoorProjectUpdater.cs:21-30 | visiting a loaded scene again (the hierarchy may list it twice) rewrites nothing more and counts no more links |
| DoorProjectUpdater.VisitScene | Assets/Editor/Doors/DoorProjectUpdater.cs:21-30 | one iteration: an invalid or unloaded slot is skipped; otherwise the scene is rewritten, and when links changed it is marked dirty and the count grows by their number |
| DoorProjectUpdater.ReplaceReferencesInOpenScenes | Assets/Editor/Doors/DoorProjectUpdater.cs:18-32 | the new scene contents, dirty set and `changedLinks` are exactly those of the pass over the hierarchy; nothing is saved |
| DoorProjectUpdater.PrefabVisit | Assets/Editor/Doors/DoorProjectUpdater.cs:42-88 | one prefab's visit keeps the set of prefabs, never lowers the count, and only appends to the saved list |
| DoorProjectUpdater.PrefabsPass | Assets/Editor/Doors/DoorProjectUpdater.cs:41-89 | the pass over the prefab GUIDs keeps the set of prefabs, never lowers `changedLinks`, and only appends to the saved list |
| DoorProjectUpdater.PrefabsPassStep | Assets/Editor/Doors/DoorProjectUpdater.cs:41-89 | the pass over one more GUID is one more visit |
| DoorProjectUpdater.PrefabsPassEffect | Assets/Editor/Doors/DoorProjectUpdater.cs:41-89 | GUIDs with a blank path are skipped; every visited prefab is rewritten and the others are untouched; a prefab is saved exactly when it is visited and had a matching link; the count grows by exactly `PrefabMatches`, the links rewritten |
| DoorProjectUpdater.VisitedInStep | Assets/Editor/Doors/DoorProjectUpdater.cs:42-45 | a prefab is visited by the GUIDs exactly when it is visited by all but the last or by the last one |
| DoorProjectUpdater.PrefabVisitStep | Assets/Editor/Doors/DoorProjectUpdater.cs:47-84 | visiting a prefab again rewrites nothing more and counts no more links |
| DoorProjectUpdater.VisitPrefab | Assets/Editor/Doors/DoorProjectUpdater.cs:42-88 | one iteration: a blank path is skipped; otherwise the prefab is loaded, rewritten, saved and counted when links changed, and always unloaded |
| DoorProjectUpdater.ReplaceReferencesInAllPrefabs | Assets/Editor/Doors/DoorProjectUpdater.cs:38-92 | the new prefab contents, saved prefabs and `changedLinks` are exactly those of the pass over the prefab GUIDs; no prefab stays loaded |
| DoorChangeIdWindows.RenameCheck | Assets/Editor/Doors/DoorChangeIdWindow.cs:62-88 | which guard stops the rename: an invalid id, an unchanged id, a door outside a valid scene, an id already carried by another door of the scene, or an unknown scene GUID. The rename proceeds exactly when none of these applies, with the door's old id and the scene's GUID |
| DoorChangeIdWindows.CheckRename | Assets/Editor/Doors/DoorChangeIdWindow.cs:62-88 | the guards as `Apply` runs them, with the uniqueness test done by a pass over the scene's doors, give exactly `RenameCheck` |
| DoorChangeIdWindows.DoorChangeIdWindow.Show | Assets/Editor/Doors/DoorChangeIdWindow.cs:16-24 | the window holds the door, is open, and proposes the door's current id, or the empty string without a door |
| DoorChangeIdWindows.DoorChangeIdWindow.Random | Assets/Editor/Doors/DoorChangeIdWindow.cs:45-47 | the proposal becomes a valid generated id of five characters |
| DoorChangeIdWindows.DoorChangeIdWindow.Apply | Assets/Editor/Doors/DoorChangeIdWindow.cs:59-112 | the id is trimmed first. A failing guard changes no scene, dirty flag or prefab. Otherwise links are rewritten in the open scenes, then in the prefabs; the door gets the new id and its scene is marked dirty. The window closes on success and on an unchanged id only |
| DoorChangeIdWindows.ApplyTrimmed | Assets/Editor/Doors/DoorChangeIdWindow.cs:62-111 | for an already trimmed id: stopped with nothing changed exactly when a guard fails, otherwise renamed from the door's old id |
| DoorChangeIdWindows.RenameDoor | Assets/Editor/Doors/DoorChangeIdWindow.cs:90-100 | the open-scene pass, then the prefab pass, then the door's own id is set, and its scene is added to the dirty scenes |
| DoorChangeIdWindows.PassKeepsShape | Assets/Editor/Doors/DoorChangeIdWindow.cs:93 | the open-scene pass keeps the number of roots and of doors under each root, so the renamed door is still where the handle points |
| DoorChangeIdWindows.FlattenUpdate | Assets/Editor/Doors/DoorChangeIdWindow.cs:97 | after one door is replaced, every door of the scene is the new door or an old one |
| DoorChangeIdWindows.RelinkKeepsCarriers | Assets/Editor/Doors/DoorChangeIdWindow.cs:93 | relinking keeps each door's instance and own id, so it keeps which doors carry an id |
| DoorChangeIdWindows.RenameKeepsCarriers | Assets/Editor/Doors/DoorChangeIdWindow.cs:97 | giving one door of an instance the id keeps the id to that instance |
| DoorChangeIdWindows.RenameKeepsIdFree | Assets/Editor/Doors/DoorChangeIdWindow.cs:79-100 | after a rename that passed the uniqueness guard, the renamed door carries the new id and no other door of its scene does |
| DoorChangeIdWindows.RelinkThenRenameKeepsIdFree | Assets/Editor/Doors/DoorChangeIdWindow.cs:93-97 | relinking a scene and then setting one door's id keeps that door in place, gives it the new id, and leaves the id to it alone |
| SceneDoorCaches.LabelShape | Assets/Editor/Doors/SceneDoorCache.cs:90-95 | the label is the id (or `<empty>` for a blank id), then ` (`, the object name and `)` |
| SceneDoorCaches.Label | Assets/Editor/Doors/SceneDoorCache.cs:90-95 | the label is three characters longer than the id part and the object name together, and ends with `)` |
| SceneDoorCaches.Infos | Assets/Editor/Doors/SceneDoorCache.cs:82-98 | one entry per door, blank ids included, in door order, each with the door's id and label |
| SceneDoorCaches.AdjacentIsSorted | Assets/Editor/Doors/SceneDoorCache.cs:101 | neighbours in ordinal order make a list in ordinal order |
| SceneDoorCaches.SortById | Assets/Editor/Doors/SceneDoorCache.cs:101 | afterwards the entries are sorted by ordinal id and are a permutation of the entries before |
| SceneDoorCaches.InsertAt | Assets/Editor/Doors/SceneDoorCache.cs:101 | one insertion step leaves the first i+1 entries in order, and the array is a permutation of what it was |
| SceneDoorCaches.SinkOne | Assets/Editor/Doors/SceneDoorCache.cs:101 | moving the entry one place left keeps the order around it and the multiset of entries |
| SceneDoorCaches.SwapWithPrevious | Assets/Editor/Doors/SceneDoorCache.cs:101 | exchanges two neighbouring entries, leaves every other entry as it was, and keeps the multiset |
| SceneDoorCaches.SortedPermutationsAgree | Assets/Editor/Doors/SceneDoorCache.cs:101 | any two sorted arrangements of the same entries have the same sequence of ids, so the listing does not depend on how the sort breaks ties |
| SceneDoorCaches.SortedInfos | Assets/Editor/Doors/SceneDoorCache.cs:79-102 | the entries of the doors, one per door, sorted by ordinal id |
| SceneDoorCaches.InfoArray | Assets/Editor/Doors/SceneDoorCache.cs:82-98 | the building loop yields a fresh array holding the entries of the doors in door order |
| SceneDoorCaches.LoadDoorsFromSceneGuid | Assets/Editor/Doors/SceneDoorCache.cs:67-109 | the scene's entries (none for a GUID with a blank path), sorted by id; a scene opened for the listing is closed again, so the hierarchy ends as it began |
| SceneDoorCaches.SceneDoorCache.constructor | Assets/Editor/Doors/SceneDoorCache.cs:33 | the cache starts empty |
| SceneDoorCaches.SceneDoorCache.GetDoorsByGuid | Assets/Editor/Doors/SceneDoorCache.cs:40-58 | nothing, with the cache untouched, for a blank GUID or while entering play mode; the cached list while it is younger than 2 s; otherwise a fresh listing, stored with the current time. The result is always sorted |
| SceneDoorCaches.SceneDoorCache.InvalidateAll | Assets/Editor/Doors/SceneDoorCache.cs:63-65 | every cached list is dropped, so the next lookup of any GUID lists again |
| DoorBuildValidator.ValidateSceneAt | Assets/Editor/Doors/DoorBuildValidator.cs:26-32 | validates the scene at a non-blank path, opening and closing it when needed, and leaves the hierarchy as it was |
| DoorBuildValidator.ValidateGuid | Assets/Editor/Doors/DoorBuildValidator.cs:21-32 | a GUID with a blank path contributes no errors; otherwise its scene's validation errors |
| DoorBuildValidator.ValidateAllScenes | Assets/Editor/Doors/DoorBuildValidator.cs:19-33 | the loop collects the errors of every scene asset in scene order, and `errorCount` is their number |
| DoorBuildValidator.Messages | Assets/Editor/Doors/DoorBuildValidator.cs:28-31 | the message of each error, in error order |
| DoorBuildValidator.Report | Assets/Editor/Doors/DoorBuildValidator.cs:28-31 | empty exactly without errors; otherwise it ends with the last message's full stop and a line break |
| DoorBuildValidator.ReportLines | Assets/Editor/Doors/DoorBuildValidator.cs:28-31 | when no message holds a line break, the report splits into the messages, one per line, in order |
| DoorBuildValidator.FailureMessage | Assets/Editor/Doors/DoorBuildValidator.cs:36 | starts with `Doors validation failed (`, ends with the report, and the digits in between, before ` errors): `, read back as the error count |
| DoorBuildValidator.OnPreprocessBuild | Assets/Editor/Doors/DoorBuildValidator.cs:14-38 | the build fails exactly when some scene has an error, with a message giving the error count and one line per error, in scene-then-error order; the hierarchy is left as it was |
| DoorBuildValidator.BuildErrorsStep | Assets/Editor/Doors/DoorBuildValidator.cs:20-33 | the errors of one more scene are those of the scenes before it followed by its own |
| DoorBuildValidator.BuildPassesIffAllClean | Assets/Editor/Doors/DoorBuildValidator.cs:35-37 | the build passes exactly when every scene asset validates clean |
| DoorBuildValidator.CleanBuildAllClean | Assets/Editor/Doors/DoorBuildValidator.cs:35-37 | a build without errors has no scene with an error |
| DoorBuildValidator.AllCleanCleanBuild | Assets/Editor/Doors/DoorBuildValidator.cs:35-37 | when no scene has an error, the build has none |
| DoorPlayModeValidator.OpenScenesErrorsStep | Assets/Editor/Doors/DoorPlayModeValidator.cs:59-68 | the errors of one more slot are those of the slots before it followed by its own |
| DoorPlayModeValidator.IsEnabled | Assets/Editor/Doors/DoorPlayModeValidator.cs:29-31 | the stored switch, and on when nothing is stored under its key |
| DoorPlayModeValidator.ValidateSlot | Assets/Editor/Doors/DoorPlayModeValidator.cs:60-67 | an invalid or unloaded slot contributes nothing; a valid, loaded scene contributes its validation errors |
| DoorPlayModeValidator.ValidateOpenScenes | Assets/Editor/Doors/DoorPlayModeValidator.cs:56-71 | the errors of every valid, loaded scene, concatenated in hierarchy order; the hierarchy is left as it was |
| DoorPlayModeValidator.OpenScenesCleanIff | Assets/Editor/Doors/DoorPlayModeValidator.cs:43-53 | play mode is blocked exactly when some valid, loaded scene has an error |
| DoorPlayModeValidator.CleanSlotsAllClean | Assets/Editor/Doors/DoorPlayModeValidator.cs:56-71 | without errors, no slot has an error |
| DoorPlayModeValidator.AllSlotsCleanNoErrors | Assets/Editor/Doors/DoorPlayModeValidator.cs:56-71 | when no slot has an error, there is none |
| DoorPlayModeValidator.PlayModeGate.constructor | Assets/Editor/Doors/DoorPlayModeValidator.cs:29-31 | the gate reads the given preferences; a missing key means enabled |
| DoorPlayModeValidator.PlayModeGate.ToggleEnabled | Assets/Editor/Doors/DoorPlayModeValidator.cs:17-21 | the switch flips, the new value is stored under its key, and the menu tick shows it |
| DoorPlayModeValidator.PlayModeGate.ToggleEnabledValidate | Assets/Editor/Doors/DoorPlayModeValidator.cs:23-27 | the menu tick shows the switch, and the item is always enabled |
| DoorPlayModeValidator.PlayModeGate.OnPlayModeStateChanged | Assets/Editor/Doors/DoorPlayModeValidator.cs:33-54 | only with the switch on and on `ExitingEditMode` are the open scenes validated; every error is logged, and play is cancelled exactly when there is at least one |
| DoorValidationMenu.AsWrittenAdmitsUnloadedScene | Assets/Editor/Doors/DoorValidationMenu.cs:17 | the filter as written lets through a valid scene with a path that is not loaded, and its doors cannot be listed |
| DoorValidationMenu.AdmittedScenesAreListable | Assets/Editor/Doors/DoorValidationMenu.cs:15-21 | the corrected filter is the written filter plus "loaded", and every scene it admits can have its doors listed |
| DoorValidationMenu.MenuErrorsStep | Assets/Editor/Doors/DoorValidationMenu.cs:15-26 | the errors of one more slot are those of the slots before it followed by its own |
| DoorValidationMenu.ValidateAdmitted | Assets/Editor/Doors/DoorValidationMenu.cs:16-25 | a skipped slot contributes nothing; an admitted scene contributes its validation errors |
| DoorValidationMenu.ValidateOpenScenes | Assets/Editor/Doors/DoorValidationMenu.cs:12-31 | every error of every admitted scene is logged in hierarchy order, and the OK line is logged exactly when there is none; the hierarchy is left as it was |
| DoorValidationMenu.MenuCleanIff | Assets/Editor/Doors/DoorValidationMenu.cs:13-30 | `anyErrors` stays false, so the menu reports OK, exactly when every admitted scene validates clean |
| DoorValidationMenu.CleanMenuAllClean | Assets/Editor/Doors/DoorValidationMenu.cs:15-26 | without errors, no admitted scene has an error |
| DoorValidationMenu.AllAdmittedCleanNoErrors | Assets/Editor/Doors/DoorValidationMenu.cs:15-26 | when no admitted scene has an error, there is none |
| SimpleStateMachines.Clamp01 | Assets/Scripts/Core/FSM/SimpleStateMachine.cs:21 | `Mathf.Clamp01`: the result is in [0, 1]; a value in range is kept; a value below gives 0; a value above gives 1 |
| SimpleStateMachines.ProgressOf | Assets/Scripts/Core/FSM/SimpleStateMachine.cs:13-22 | always in [0, 1]; 0 with nothing pending; for a positive delay, `clamp(1 - remaining/delay, 0, 1)` |
| SimpleStateMachines.RemainingShare | Assets/Scripts/Core/FSM/SimpleStateMachine.cs:21 | the share of the delay that has run out is at least 1 once no time remains, at most 0 while the whole delay remains, and otherwise is the elapsed part of the delay |
| SimpleStateMachines.SteppedFollowsRules | Assets/Scripts/Core/FSM/SimpleStateMachine.cs:78-86 | `Update` never changes the rules, and it changes the state only to the pending target, along an allowed transition |
| SimpleStateMachines.Stepped | Assets/Scripts/Core/FSM/SimpleStateMachine.cs:78-86 | `Update` does nothing with nothing pending; while the transition stays pending only the remaining time changes, by the delta; once it fires the remaining time is 0 |
| SimpleStateMachines.SteppedConsistent | Assets/Scripts/Core/FSM/SimpleStateMachine.cs:78-91 | `Update` keeps the invariant that nothing pending means no remaining time |
| SimpleStateMachines.SteppedFiresIff | Assets/Scripts/Core/FSM/SimpleStateMachine.cs:78-86 | a pending transition happens exactly when the remaining time minus the delta reaches zero and the rules allow it; otherwise it stays pending and the remaining time drops by the delta |
| SimpleStateMachines.SteppedAdds | Assets/Scripts/Core/FSM/SimpleStateMachine.cs:78-86 | two updates that leave the transition pending equal one update by the sum of their deltas |
| SimpleStateMachines.ProgressGrows | Assets/Scripts/Core/FSM/SimpleStateMachine.cs:13-86 | while a transition stays pending, an update never lowers `Progress` |
| SimpleStateMachines.SimpleStateMachine.constructor | Assets/Scripts/Core/FSM/SimpleStateMachine.cs:28-30 | the state is the constructor argument, there are no rules, and nothing is pending |
| SimpleStateMachines.SimpleStateMachine.Progress | Assets/Scripts/Core/FSM/SimpleStateMachine.cs:13-22 | in [0, 1], and 0 with nothing pending |
| SimpleStateMachines.SimpleStateMachine.AddTransitions | Assets/Scripts/Core/FSM/SimpleStateMachine.cs:32-43 | the targets are added to the source's set, creating it on the first target; nothing else changes, and an empty target list adds no entry |
| SimpleStateMachines.SimpleStateMachine.ResetTo | Assets/Scripts/Core/FSM/SimpleStateMachine.cs:45-47 | any state, regardless of the rules; the rules and a pending transition stay |
| SimpleStateMachines.SimpleStateMachine.CanGo | Assets/Scripts/Core/FSM/SimpleStateMachine.cs:49-56 | true exactly when the target differs from the current state and is in the current state's set |
| SimpleStateMachines.SimpleStateMachine.Go | Assets/Scripts/Core/FSM/SimpleStateMachine.cs:58-66 | succeeds exactly when `CanGo`; success moves to the target and clears any pending transition; failure changes nothing |
| SimpleStateMachines.SimpleStateMachine.GoLater | Assets/Scripts/Core/FSM/SimpleStateMachine.cs:68-76 | a disallowed transition returns false and schedules nothing; an allowed one replaces any pending transition and sets the remaining time to the delay |
| SimpleStateMachines.SimpleStateMachine.Update | Assets/Scripts/Core/FSM/SimpleStateMachine.cs:78-91 | the new state is `Stepped` of the old one: the remaining time drops by the delta, and a `Go` is tried only once it is at or below zero |
| SimpleStateMachines.Build | Assets/Scripts/Core/FSM/SimpleStateMachine.cs:28-43 | a constructor call followed by `AddTransitions` calls leaves the initial state, nothing pending, and the union of the calls' rules |
| SimpleStateMachines.RulesMapAppend | Assets/Scripts/Core/FSM/SimpleStateMachine.cs:32-43 | one more `AddTransitions` call adds its targets to the rules of the calls before it |
| StateMachineScenarios.TestRulesMap | Assets/Editor/Tests/FSM/SimpleStateMachineTest.cs:16-20 | the test machine's rules are B to {A, C} and A to {C} |
| StateMachineScenarios.NewTestMachine | Assets/Editor/Tests/FSM/SimpleStateMachineTest.cs:12-21 | the test machine starts in B, with nothing pending and those rules |
| StateMachineScenarios.SetsDefaultStateDuringCreation | Assets/Editor/Tests/FSM/SimpleStateMachineTest.cs:32-34 | a new machine is in its initial state B |
| StateMachineScenarios.AllowsResettingToAnyStateIgnoringRules | Assets/Editor/Tests/FSM/SimpleStateMachineTest.cs:37-46 | `ResetTo` reaches C, A and B in turn, whatever the rules |
| StateMachineScenarios.ReturnsProperPermissionsForSpecificTransition | Assets/Editor/Tests/FSM/SimpleStateMachineTest.cs:49-62 | `CanGo` allows B to A, B to C and A to C, and refuses B to B, A to B, C to A and C to B |
| StateMachineScenarios.GoesToAllowedStatesAndReturnsResult | Assets/Editor/Tests/FSM/SimpleStateMachineTest.cs:65-74 | `Go(A)` from B succeeds; `Go(B)` from A then fails and keeps A |
| StateMachineScenarios.PerformsDelayedTransition | Assets/Editor/Tests/FSM/SimpleStateMachineTest.cs:77-86 | a transition scheduled 0.5 s ahead has not happened after 0.25 s and has after 0.5 s |
| StateMachineScenarios.ImmediatelyReturnsFalseIfDelayedTransitionIsProhibited | Assets/Editor/Tests/FSM/SimpleStateMachineTest.cs:89-95 | a disallowed delayed transition is refused at once, and the state stays |
| StateMachineScenarios.ReturnsProgressForPendingState | Assets/Editor/Tests/FSM/SimpleStateMachineTest.cs:98-104 | after 0.1 s of a 0.5 s delay, the progress is 0.2 |
| StateMachineScenarios.SharkyAllowsEveryChange | Assets/Prefabs/Characters/Sharky/SharkyStateMachine.cs:11-15 | Sharky may go from any state to any other, and never stays by a transition |
| StateMachineScenarios.NewSharkyMachine | Assets/Prefabs/Characters/Sharky/SharkyStateMachine.cs:10-16 | Sharky's machine starts idle, with nothing pending and every change of state allowed |
| StateMachineServices.SurvivorsAreAlive | Assets/Scripts/Core/Services/StateMachineService.cs:15-21 | after pruning, an entry remains exactly when it was there and its owner is alive with a machine |
| StateMachineServices.SurvivorsAppend | Assets/Scripts/Core/Services/StateMachineService.cs:15-21 | pruning a concatenation prunes each part, so the survivors keep their relative order |
| StateMachineServices.SurvivorsIdempotent | Assets/Scripts/Core/Services/StateMachineService.cs:15-21 | pruning a second time removes nothing more |
| StateMachineServices.StateMachineService.constructor | Assets/Scripts/Core/Services/StateMachineService.cs:12 | the service starts with no entries |
| StateMachineServices.StateMachineService.Create | Assets/Scripts/Core/Services/StateMachineService.cs:34-38 | exactly one entry is appended, pairing the new machine with its owner; that machine is returned, built as its class's constructor builds it |
| StateMachineServices.StateMachineService.Update | Assets/Scripts/Core/Services/StateMachineService.cs:14-25 | the entries become the survivors in their order; each surviving machine takes exactly one update by the delta; machines of removed entries stay as they were |
| StateMachineServices.StateMachineService.StepEntry | Assets/Scripts/Core/Services/StateMachineService.cs:16-23 | one iteration of the backward loop drops the entry when it does not survive, and updates its machine once when it does; no other machine changes |
| StateMachineServices.SurvivorsStep | Assets/Scripts/Core/Services/StateMachineService.cs:15-21 | the survivors from position i are entry i when it survives, followed by the survivors after it |
| StateMachineServices.SurvivorsKeepValid | Assets/Scripts/Core/Services/StateMachineService.cs:15-24 | every surviving machine is a machine of the list, so it is valid when they all are |
| StateMachineServices.SurvivorIsAlive | Assets/Scripts/Core/Services/StateMachineService.cs:18-21 | a survivor is an entry of the list with a live owner and a machine |
| StateMachineServices.SurvivorsDistinct | Assets/Scripts/Core/Services/StateMachineService.cs:15-24 | pruning keeps the machines distinct, so no machine is updated twice in one frame |
| GroundPatrolPaths.TurnsForeverOutside | Assets/Prefabs/Characters/Sharky/GroundPatrolPath.cs:43-55 | from an index further than one step outside the list, neither direction lands inside it, so `NextTarget` would recurse without end |
| GroundPatrolPaths.Advance | Assets/Prefabs/Characters/Sharky/GroundPatrolPath.cs:38-60 | nothing changes with fewer than two points; otherwise the new index is inside the list, one step from the old one, and the direction is kept exactly when the step in it stays inside |
| GroundPatrolPaths.AdvanceCorrected | Assets/Prefabs/Characters/Sharky/GroundPatrolPath.cs:38-56 | for every target index, with two points or more the new target is inside the list; a target the source steps from steps the same; one further out walks back in at the nearer end's point, turned inwards |
| GroundPatrolPaths.PingPong | Assets/Prefabs/Characters/Sharky/GroundPatrolPath.cs:38-60 | from the first point going up, after k steps the target is point k on the way up and point 2(count-1)-k on the way back |
| GroundPatrolPaths.IterateLast | Assets/Prefabs/Characters/Sharky/GroundPatrolPath.cs:38-56 | one more step is one more `NextTarget` at the end |
| GroundPatrolPaths.GroundPatrolPath.constructor | Assets/Prefabs/Characters/Sharky/GroundPatrolPath.cs:13-26 | the configured start, direction and points; the current target is index 0, going up |
| GroundPatrolPaths.GroundPatrolPath.GetTargetPoint | Assets/Prefabs/Characters/Sharky/GroundPatrolPath.cs:34-36 | the waypoint at the current target index, a point of the path; an index outside the list (an empty path, or a list cut short) throws, exactly then |
| GroundPatrolPaths.GroundPatrolPath.NextTarget | Assets/Prefabs/Characters/Sharky/GroundPatrolPath.cs:38-56 | the new target and direction are those of `Advance`: one step in the current direction, or a turn and one step back at either end |
| GroundPatrolPaths.GroundPatrolPath.ResetPoint | Assets/Prefabs/Characters/Sharky/GroundPatrolPath.cs:62-65 | back to the configured start index and direction |
| GroundPatrolPaths.GroundPatrolPath.OnValidate | Assets/Prefabs/Characters/Sharky/GroundPatrolPath.cs:68-75 | the start index is clamped into the list, or is 0 with no points; a start inside the list is kept; so a reset target can always be advanced |
| PatternGridTiles.Rem | Assets/Scripts/Tiles/PatternGridTile.cs:111 | C#'s `%`: the remainder has the dividend's sign, is smaller than the divisor in size, and differs from the dividend by a multiple of the divisor |
| PatternGridTiles.RemCongruent | Assets/Scripts/Tiles/PatternGridTile.cs:111 | the truncated remainder differs from the dividend by a multiple of the divisor |
| PatternGridTiles.Mod | Assets/Scripts/Tiles/PatternGridTile.cs:110-117 | for a positive modulus the result lies in [0, modulo), is congruent to the value, and is the Euclidean remainder |
| PatternGridTiles.TileIndex | Assets/Scripts/Tiles/PatternGridTile.cs:76-83 | the sprite index `x + (h-1-y)*w` always lies in [0, w*h), so the array access is in bounds |
| PatternGridTiles.TileIndexPeriodic | Assets/Scripts/Tiles/PatternGridTile.cs:76-77 | cells a pattern width apart, or a pattern height apart, get the same sprite index |
| PatternGridTiles.TileIndexInPattern | Assets/Scripts/Tiles/PatternGridTile.cs:76-83 | within one repetition from the offsets, column x and row y take sprite x of row h-1-y counted from the top, so every sprite of the pattern appears once |
| PatternGridTiles.PatternGridTile.constructor | Assets/Scripts/Tiles/PatternGridTile.cs:23-59 | the serialized defaults: a 3 by 3 pattern, no array, no offset, no collider |
| PatternGridTiles.PatternGridTile.GetTileData | Assets/Scripts/Tiles/PatternGridTile.cs:62-85 | the collider type, lock flag and identity transform are always set; without a valid array there is no sprite; otherwise the cell's pattern sprite |
| PatternGridTiles.PatternGridTile.GetTileDataPeriodic | Assets/Scripts/Tiles/PatternGridTile.cs:76-84 | cells a pattern width or height apart get the same tile data |
| PatternGridTiles.PatternGridTile.OnValidate | Assets/Scripts/Tiles/PatternGridTile.cs:125-146 | both sizes become at least 1. An array of the wrong size (or none) is replaced by one of w*h entries that keeps the old entries that fit and leaves the new ones empty. An already valid tile is left as it was, so a second call changes nothing |
| PatternGridTiles.Resized | Assets/Scripts/Tiles/PatternGridTile.cs:137-142 | a fresh array of the target length holding the first min(old, new) entries and empty slots after them |
| LayerMaskExtensions.Contains | Assets/Scripts/Core/Extensions/LayerMaskExtensions.cs:11-13 | true exactly when the mask has the bit `1 << layer` set, with C#'s shift by the layer modulo 32 |
| LayerMaskExtensions.EmptyMaskContainsNothing | Assets/Scripts/Core/Extensions/LayerMaskExtensions.cs:12 | the empty mask contains no layer |
| LayerMaskExtensions.SingleLayerMask | Assets/Scripts/Core/Extensions/LayerMaskExtensions.cs:12 | the mask `1 << l` contains exactly the layers that shift to the same bit as l |
| LayerMaskExtensions.ContainsMonotone | Assets/Scripts/Core/Extensions/LayerMaskExtensions.cs:12 | a mask that has every bit of another contains every layer the other contains |
| Damageables.Clamp | Assets/Scripts/Components/Damageable.cs:99 | `Mathf.Clamp`: the result is within the bounds, and a value already within them is kept |
| Damageables.Damageable.constructor | Assets/Scripts/Components/Damageable.cs:13-52 | the serialized settings and health; not hit, not dead, not ignoring damage, and the timer at 0 |
| Damageables.Damageable.Awake | Assets/Scripts/Components/Damageable.cs:54-61 | a health of 0 or less starts at the maximum; any other health is kept |
| Damageables.Damageable.AddHealth | Assets/Scripts/Components/Damageable.cs:98-100 | the health becomes `clamp(health + amount, 0, max)`, so it stays in [0, max] |
| Damageables.Damageable.TryTakeDamage | Assets/Scripts/Components/Damageable.cs:90-104 | refused, with nothing changed, when damage is ignored, the damage is not positive, the entity is dead or the timer still runs; an accepted hit is `ApplyDamage`; a dead entity stays dead |
| Damageables.Damageable.ApplyDamage | Assets/Scripts/Components/Damageable.cs:109-128 | the health becomes `clamp(health - damage, 0, max)`, the hit flag is set and the timer restarts; the entity is dead exactly when the health is 0 or less; knockback only on a non-lethal hit with knockback on |
| Damageables.Damageable.LateUpdate | Assets/Scripts/Components/Damageable.cs:63-74 | the hit flag is cleared; the timer is zeroed while damage is ignored, and otherwise a running timer counts down by the delta; health and death stay |
| Damageables.HitThenHitAgain | Assets/Scripts/Components/Damageable.cs:90-116 | with a positive invulnerability time, a hit right after an accepted one is refused, and the health stays where the first hit left it |
| Damageables.DeadStaysDead | Assets/Scripts/Components/Damageable.cs:90-128 | once dead, no call of the class brings the entity back |
| SafePointTrackers.SafePointTracker.constructor | Assets/Scripts/Utils/SafePointTracker.cs:21-26 | a new tracker has no safe position and no stable time |
| SafePointTrackers.SafePointTracker.Update | Assets/Scripts/Utils/SafePointTracker.cs:36-57 | a grounded frame with `velocity.y <= 0.01` adds its delta to the stable time, and reaching the minimum records the position, sets the flag and restarts the count; any other frame restarts the count; the safe position changes only when recorded |
| SafePointTrackers.SafePointTracker.Reset | Assets/Scripts/Utils/SafePointTracker.cs:62-65 | clears the flag and the stable time, and keeps the last safe position |
| SafePointTrackers.TwoStableFrames | Assets/Scripts/Utils/SafePointTracker.cs:42-52 | with a positive minimum, one frame shorter than the minimum records nothing, and a second frame that completes the minimum records its position |
| SimpleSpriteAnimators.FrameDurationOf | Assets/Scripts/Core/Components/SimpleSpriteAnimator.cs:44 | `1f / frameRate`: infinite exactly for a frame rate of 0, and otherwise its product with the rate is one second |
| SimpleSpriteAnimators.NextFrame | Assets/Scripts/Core/Components/SimpleSpriteAnimator.cs:65-78 | from a frame of the animation: the next frame, or after the last one the first frame when looping and none when playing once |
| SimpleSpriteAnimators.LoopFrame | Assets/Scripts/Core/Components/SimpleSpriteAnimator.cs:65-78 | the frame after k steps of a looping animation is always a frame of the animation |
| SimpleSpriteAnimators.LoopVisitsEveryFrame | Assets/Scripts/Core/Components/SimpleSpriteAnimator.cs:65-78 | a looping animation cycles through every frame in order: step k shows frame k mod count |
| SimpleSpriteAnimators.SimpleSpriteAnimator.constructor | Assets/Scripts/Core/Components/SimpleSpriteAnimator.cs:10-40 | the given settings; enabled at frame 0 with nothing shown and no completion |
| SimpleSpriteAnimators.SimpleSpriteAnimator.OnEnable | Assets/Scripts/Core/Components/SimpleSpriteAnimator.cs:42-50 | the frame duration follows the frame rate; a random start frame is the draw from [0, count); the start frame is shown |
| SimpleSpriteAnimators.SimpleSpriteAnimator.Update | Assets/Scripts/Core/Components/SimpleSpriteAnimator.cs:52-79 | nothing without sprites; at most one frame step per call, only once the timer reaches the frame duration, which is then subtracted once; a one-shot animation that would wrap fires `onComplete` once, disables itself, keeps its last frame, and asks for destruction when so set |
| SimpleSpriteAnimators.SimpleSpriteAnimator.SetSprite | Assets/Scripts/Core/Components/SimpleSpriteAnimator.cs:81-88 | an index past the last sprite is ignored; any other is shown, so the current frame always indexes a sprite |
| SimpleSpriteAnimators.PlayOnce | Assets/Scripts/Core/Components/SimpleSpriteAnimator.cs:52-79 | a one-shot animation updated by one frame duration per call shows each frame once, in order, then completes once and is disabled |
| MultiStateSpriteAnimators.StateAnimationClip.constructor | Assets/Scripts/Core/Components/MultiStateSpriteAnimator.cs:133-154 | a clip's serialized name, sprites, loop flag and next-clip flag |
| MultiStateSpriteAnimators.IndexOf | Assets/Scripts/Core/Components/MultiStateSpriteAnimator.cs:86 | `Array.IndexOf` by reference: the first position of the clip, or -1 exactly when it is not in the list |
| MultiStateSpriteAnimators.FirstNamed | Assets/Scripts/Core/Components/MultiStateSpriteAnimator.cs:99-109 | the first clip with the name; none exactly when no clip has it |
| MultiStateSpriteAnimators.MultiStateSpriteAnimator.constructor | Assets/Scripts/Core/Components/MultiStateSpriteAnimator.cs:10-44 | the given settings; enabled, stopped, with no current clip and no event |
| MultiStateSpriteAnimators.MultiStateSpriteAnimator.OnEnable | Assets/Scripts/Core/Components/MultiStateSpriteAnimator.cs:46-59 | the frame duration follows the frame rate; the first clip, if any, becomes current; the start frame is shown when it is a frame of the current clip, and otherwise frame 0 of the first clip is shown, or, without one, frame and sprite stay as they were; playback starts when so configured |
| MultiStateSpriteAnimators.MultiStateSpriteAnimator.Update | Assets/Scripts/Core/Components/MultiStateSpriteAnimator.cs:61-97 | nothing changes while stopped or with an empty clip, the shown sprite and the destroy request included; otherwise the frame time grows, and until a step is due the frame and the sprite stay; a due step shows the next frame, and the end of a one-shot clip is `CompleteClip` |
| MultiStateSpriteAnimators.MultiStateSpriteAnimator.CompleteClip | Assets/Scripts/Core/Components/MultiStateSpriteAnimator.cs:76-93 | the clip's completion event and then the animator's fire; a clip that allows it makes the clip after it in the list current and shows that clip's first sprite when it has one; otherwise frame and sprite are kept; playback stops and the component is disabled whatever the clip allows |
| MultiStateSpriteAnimators.MultiStateSpriteAnimator.SetClip | Assets/Scripts/Core/Components/MultiStateSpriteAnimator.cs:99-109 | the first clip with the name is selected as by `SetClip(int)`; an unknown name disables the component and changes nothing else |
| MultiStateSpriteAnimators.MultiStateSpriteAnimator.SetClipAt | Assets/Scripts/Core/Components/MultiStateSpriteAnimator.cs:111-120 | an index outside the list throws and changes nothing; otherwise the clip is current, enabled and playing, and its first frame is shown |
| MultiStateSpriteAnimators.MultiStateSpriteAnimator.SetSprite | Assets/Scripts/Core/Components/MultiStateSpriteAnimator.cs:122-129 | an index past the current clip's last sprite is ignored; any other is shown |
| MultiStateSpriteAnimators.NextClipIsSelectedButStopped | Assets/Scripts/Core/Components/MultiStateSpriteAnimator.cs:76-93 | when a one-shot clip that allows the next clip ends, both events fire and the next clip becomes current at frame 0, yet playback is stopped and the component disabled |
| InteractableBases.InteractableBase.constructor | Assets/Scripts/Components/Interaction/InteractableBase.cs:13 | a new interactable is not hovered and has seen no change |
| InteractableBases.InteractableBase.SetIsHovered | Assets/Scripts/Components/Interaction/InteractableBase.cs:19-27 | the getter then returns the value; `OnHoveredChange` is called once with the new value exactly when the value changed |
| InteractableBases.HoveredThreeTimes | Assets/Scripts/Components/Interaction/InteractableBase.cs:19-27 | three identical assignments call `OnHoveredChange` only once |
| Switchables.Toggles | Assets/Scripts/Components/Interaction/Switchable.cs:25-27 | the events of n toggles alternate, starting with the opposite of the initial state |
| Switchables.Toggled | Assets/Scripts/Components/Interaction/Switchable.cs:25-27 | after an even number of toggles the state is the initial one, after an odd number its opposite |
| Switchables.TogglesStep | Assets/Scripts/Components/Interaction/Switchable.cs:25-27 | one more toggle flips the state once more and records the new state |
| Switchables.Switchable.constructor | Assets/Scripts/Components/Interaction/Switchable.cs:14 | a switchable starts inactive, with no event |
| Switchables.Switchable.SetIsActive | Assets/Scripts/Components/Interaction/Switchable.cs:17-22 | the state becomes the value; `onChange` fires once with it exactly when the value changed |
| Switchables.Switchable.Toggle | Assets/Scripts/Components/Interaction/Switchable.cs:25-27 | the state flips, and exactly one event fires with the new state |
| Switchables.ToggleTwice | Assets/Scripts/Components/Interaction/Switchable.cs:25-27 | toggling twice restores the state, after the events `true` then `false` |
| Switches.HoverColor | Assets/Scripts/Components/Interaction/Switch.cs:32-36 | yellow exactly while hovered, white otherwise |
| Switches.OccurrencesStep | Assets/Scripts/Components/Interaction/Switch.cs:24-26 | one more list element adds one occurrence of itself and none of any other |
| Switches.ToggleEach | Assets/Scripts/Components/Interaction/Switch.cs:24-26 | every listed switchable is toggled once per occurrence: its state flips an odd-or-even number of times, with one event each |
| Switches.ToggleAt | Assets/Scripts/Components/Interaction/Switch.cs:25 | one iteration toggles element i, and the others keep their count of toggles so far |
| Switches.Switch.constructor | Assets/Scripts/Components/Interaction/Switch.cs:8-14 | the given list, not hovered, the renderer's white tint and no `onSwitch` yet |
| Switches.Switch.SetIsHovered | Assets/Scripts/Components/Interaction/Switch.cs:32-36 | the inherited setter; a change recolours the sprite for the new value, and an unchanged value keeps the colour |
| Switches.Switch.Interact | Assets/Scripts/Components/Interaction/Switch.cs:21-30 | with a list, every switchable is toggled once per occurrence and then `onSwitch` fires once; with a null list nothing happens |
| Switches.Switch.OnValidate | Assets/Scripts/Components/Interaction/Switch.cs:49-59 | outside play mode and for an object in a valid scene: throws exactly on a null list, and warns exactly when the list is empty; otherwise nothing |
| Switches.TwiceListedCancels | Assets/Scripts/Components/Interaction/Switch.cs:21-30 | a switchable listed twice ends where it started, with the events `true` then `false`, after one `onSwitch` |
| SceneNoteMenus.NoteNumber | Assets/Editor/SceneNoteMenu.cs:39-46 | as written, a child has a number only when its name starts with `Note`, and the number is the `int.TryParse` reading of the rest |
| SceneNoteMenus.MaxNoteNumber | Assets/Editor/SceneNoteMenu.cs:36-47 | the largest number `int.TryParse` reads among the children: at least every one of them, and in [0, `int.MaxValue`] |
| SceneNoteMenus.MaxNoteNumberAttained | Assets/Editor/SceneNoteMenu.cs:36-47 | a positive maximum is the number of some child |
| SceneNoteMenus.AsWrittenRepeatsAfterIntMax | Assets/Editor/SceneNoteMenu.cs:49 | with a child `Note2147483647`, the name as written is `Note-2147483648`; `int.TryParse` reads its number as `int.MinValue`, which is not larger than the maximum, so after adding that note the same name comes again |
| SceneNoteMenus.NoteValue | Assets/Editor/SceneNoteMenu.cs:39-46 | the corrected reading: a number only for a name starting with `Note`, the rest read as an integer without a bound |
| SceneNoteMenus.MaxNoteValue | Assets/Editor/SceneNoteMenu.cs:36-47 | the largest corrected number among the children, at least every one of them, and never negative |
| SceneNoteMenus.MaxNoteValueAttained | Assets/Editor/SceneNoteMenu.cs:36-47 | a positive maximum is the number of some child |
| SceneNoteMenus.MaxNoteIndex | Assets/Editor/SceneNoteMenu.cs:36-47 | the loop over the children computes the largest corrected number |
| SceneNoteMenus.GetNextNoteName | Assets/Editor/SceneNoteMenu.cs:35-50 | `Note` followed by at least two digits whose value is one more than the largest number; no child has that name, and once the note is added the next name is another one |
| SceneNoteMenus.NextNoteNameFresh | Assets/Editor/SceneNoteMenu.cs:36-49 | the new name carries one more than the largest number, so no child has it |
| SceneNoteMenus.AboveMaxAbsent | Assets/Editor/SceneNoteMenu.cs:36-49 | a name whose number exceeds every child's is no child's name |
| SceneNoteMenus.NextNoteNameAdvances | Assets/Editor/SceneNoteMenu.cs:36-49 | once the new note is added the largest number is its number, so the next name differs |
| SceneNoteMenus.NoteNameValue | Assets/Editor/SceneNoteMenu.cs:49 | `Note` followed by any integer formatted `:D2` carries that integer |
| SceneNoteMenus.NoteNameNumber | Assets/Editor/SceneNoteMenu.cs:43-49 | `Note` followed by an `int` formatted `:D2` carries it as `int.TryParse` reads it too |
| SceneNoteMenus.NoteNameParts | Assets/Editor/SceneNoteMenu.cs:49 | `Note` plus a positive number formatted `:D2` starts with `Note` and ends in at least two digits whose value is the number |
| SceneNoteMenus.CorrectedAgreesBelowIntMax | Assets/Editor/SceneNoteMenu.cs:36-49 | while every child's number stays below `int.MaxValue`, the corrected maximum and name are the ones as written |
| SceneNoteMenus.MaxAgree | Assets/Editor/SceneNoteMenu.cs:36-47 | below `int.MaxValue` the two readings give the same maximum, which stays below it |
| SceneNoteMenus.FirstNoteName | Assets/Editor/SceneNoteMenu.cs:36-49 | with no child carrying a note number, the new note is `Note01` |
| SceneNoteMenus.NoNumberedNotes | Assets/Editor/SceneNoteMenu.cs:36-47 | without numbered notes the largest number is 0 |
| SceneNoteMenus.FormatD2One | Assets/Editor/SceneNoteMenu.cs:49 | one formats as `01` |
| ObjectBrushHierarchy.ForestAppend | Assets/Editor/ObjectBrush/ObjectBrushWindow.cs:1108-1149 | the names and sizes of concatenated lists of subtrees add up |
| ObjectBrushHierarchy.InstanceNumber | Assets/Editor/ObjectBrush/ObjectBrushWindow.cs:1120-1144 | a name counts only when it starts with the base name; one leading `_` or space of the rest is dropped, and a non-empty rest that parses gives the number, an `int` when read as written |
| ObjectBrushHierarchy.ParseIndex | Assets/Editor/ObjectBrush/ObjectBrushWindow.cs:1138 | a suffix is read with `int.TryParse` as written, or as an integer without a bound for the corrected index |
| ObjectBrushHierarchy.PushChildren | Assets/Editor/ObjectBrush/ObjectBrushWindow.cs:1121-1148 | every child of the transform is pushed, in child order |
| ObjectBrushHierarchy.MaxInstanceIndex | Assets/Editor/ObjectBrush/ObjectBrushWindow.cs:1106-1149 | the stack traversal visits every transform, so the result is at least every instance number in the scene, is 0 or one of them, and as written lies in [0, `int.MaxValue`] |
| ObjectBrushHierarchy.ScanName | Assets/Editor/ObjectBrush/ObjectBrushWindow.cs:1128-1144 | one name raises the maximum exactly when it carries a larger instance number |
| ObjectBrushHierarchy.GetNextInstanceIndex | Assets/Editor/ObjectBrush/ObjectBrushWindow.cs:1105-1152 | with the numbers read and incremented without a bound: at least 1, larger than every instance number of the scene, 1 or one more than one of them, and no object of the scene has the name the new instance gets |
| ObjectBrushHierarchy.GetNextInstanceIndexAsWritten | Assets/Editor/ObjectBrush/ObjectBrushWindow.cs:1151 | as written, with `int` wrap-around: below `int.MaxValue` larger than every instance number, and `int.MinValue` once a name carries `int.MaxValue` |
| ObjectBrushHierarchy.NumberedInstance | Assets/Editor/ObjectBrush/ObjectBrushWindow.cs:935-937 | the name an instance gets, `{baseName}_{index}`, carries its index, read either way when the index is an `int` |
| ObjectBrushHierarchy.InstanceNameParts | Assets/Editor/ObjectBrush/ObjectBrushWindow.cs:935-937 | an instance name starts with the base name, then `_`, then the index's text |
| ObjectBrushHierarchy.AsWrittenInstanceIndexWraps | Assets/Editor/ObjectBrush/ObjectBrushWindow.cs:1151 | a scene holding `Barrel_2147483647` makes the index as written `int.MinValue`; the instance named with it carries `int.MinValue`, and with it in the scene the next index is `int.MinValue` again |
| ObjectBrushHierarchy.NamesAlong | Assets/Editor/ObjectBrush/ObjectBrushWindow.cs:248-255 | one name per level of the path, ending with the transform's own name |
| ObjectBrushHierarchy.Reversed | Assets/Editor/ObjectBrush/ObjectBrushWindow.cs:255 | `List.Reverse`: the same length, with element k taken from the mirrored position |
| ObjectBrushHierarchy.GetHierarchyPath | Assets/Editor/ObjectBrush/ObjectBrushWindow.cs:243-257 | null for a null transform; otherwise the names from the root down to the transform, joined with `/` |
| ObjectBrushHierarchy.PrefixNames | Assets/Editor/ObjectBrush/ObjectBrushWindow.cs:248-253 | each parent of a transform is a prefix of its index path and carries the name at that level |
| ObjectBrushHierarchy.FirstNamedNode | Assets/Editor/ObjectBrush/ObjectBrushWindow.cs:270-277 | the first object with the name among siblings; none exactly when no sibling has it |
| ObjectBrushHierarchy.Resolve | Assets/Editor/ObjectBrush/ObjectBrushWindow.cs:269-283 | a path found by names leads to an object and has one index per name |
| ObjectBrushHierarchy.FindTransformByPath | Assets/Editor/ObjectBrush/ObjectBrushWindow.cs:259-284 | null for an empty path; otherwise the walk of `Resolve` over the path split at `/`, null as soon as a part has no match; a transform found carries exactly the names of the path |
| ObjectBrushHierarchy.ResolveNames | Assets/Editor/ObjectBrush/ObjectBrushWindow.cs:269-283 | a path the lookup finds carries exactly the names it was looked up by |
| ObjectBrushHierarchy.FollowParts | Assets/Editor/ObjectBrush/ObjectBrushWindow.cs:269-283 | the root step and then the child loop compute exactly `Resolve` |
| ObjectBrushHierarchy.FollowRoot | Assets/Editor/ObjectBrush/ObjectBrushWindow.cs:269-273 | the first root named by the first part, or none |
| ObjectBrushHierarchy.FollowChild | Assets/Editor/ObjectBrush/ObjectBrushWindow.cs:277-280 | one step of the child loop extends the path found for the earlier parts |
| ObjectBrushHierarchy.ResolveAppend | Assets/Editor/ObjectBrush/ObjectBrushWindow.cs:276-281 | following one more name from the path found so far takes the first child with that name, or fails |
| ObjectBrushHierarchy.ResolveMissingPrefix | Assets/Editor/ObjectBrush/ObjectBrushWindow.cs:278-280 | once a prefix of the names cannot be followed, neither can the whole list |
| ObjectBrushHierarchy.FirstNamedDistinct | Assets/Editor/ObjectBrush/ObjectBrushWindow.cs:270-277 | among siblings with distinct names, the first object with an object's name is that object |
| ObjectBrushHierarchy.WellNamedAlong | Assets/Editor/ObjectBrush/ObjectBrushWindow.cs:256 | in a well-named scene every name along a path is non-empty and has no `/` |
| ObjectBrushHierarchy.ResolveNamesAlong | Assets/Editor/ObjectBrush/ObjectBrushWindow.cs:243-284 | in a well-named scene, looking up the names along an index path gives that index path back |
| ObjectBrushHierarchy.FindOfHierarchyPath | Assets/Editor/ObjectBrush/ObjectBrushWindow.cs:243-284 | in a well-named scene, `FindTransformByPath(GetHierarchyPath(t))` finds t |
| ObjectBrushHierarchy.JoinNonEmpty | Assets/Editor/ObjectBrush/ObjectBrushWindow.cs:256-260 | a joined path that starts with a non-empty name is not empty, so the lookup does not stop at its first test |
| ObjectBrushWindows.IntClamp | Assets/Editor/ObjectBrush/ObjectBrushWindow.cs:596 | `Mathf.Clamp` on `int`: within the bounds, a value in range kept, a value too large gives the maximum |
| ObjectBrushWindows.RemovedAt | Assets/Editor/ObjectBrush/ObjectBrushWindow.cs:806-808 | `List.RemoveAt`: one shorter; the elements before the index stay and the later ones move down by one |
| ObjectBrushWindows.SelectionAfterRemoval | Assets/Editor/ObjectBrush/ObjectBrushWindow.cs:810-818 | the deleted item is deselected (-1), a later one moves down by one, and an earlier one stays |
| ObjectBrushWindows.SelectionFollowsItem | Assets/Editor/ObjectBrush/ObjectBrushWindow.cs:806-818 | after a deletion, a selection of another item still points at that same item |
| ObjectBrushWindows.ObjectBrushWindow.constructor | Assets/Editor/ObjectBrush/ObjectBrushWindow.cs:163-175 | the serialized defaults: no category, category 0 and no item selected |
| ObjectBrushWindows.ObjectBrushWindow.OnEnable | Assets/Editor/ObjectBrush/ObjectBrushWindow.cs:163-183 | an empty list gets the `Default` category; the category selection is clamped into the list, and kept when it is already in it |
| ObjectBrushWindows.ObjectBrushWindow.LoadFromBiomeProfile | Assets/Editor/ObjectBrush/ObjectBrushWindow.cs:445-471 | nothing without a profile; otherwise the profile's categories in order, with their names and slots and no default parent, or `Default` when there are none; category 0 and no item selected |
| ObjectBrushWindows.ObjectBrushWindow.AddCategory | Assets/Editor/ObjectBrush/ObjectBrushWindow.cs:579-585 | a new empty category `Category <count>` is appended and selected, with no item selected |
| ObjectBrushWindows.ObjectBrushWindow.PressRemoveCategory | Assets/Editor/ObjectBrush/ObjectBrushWindow.cs:587-599 | does nothing with at most one category; otherwise the selected category is removed, the selection clamped, no item selected, and the list is never left empty |
| ObjectBrushWindows.ObjectBrushWindow.RemoveItem | Assets/Editor/ObjectBrush/ObjectBrushWindow.cs:806-818 | the slot is removed from its category; in the selected category the item selection follows `SelectionAfterRemoval`; other categories and the category selection stay |
| ObjectBrushWindows.AddThenRemoveCategory | Assets/Editor/ObjectBrush/ObjectBrushWindow.cs:579-599 | on a fresh window, adding a category and removing it leaves `Default` selected, and the remove button then does nothing |

## Left out

- Engine calls with no bearing on the logic are not modelled: `Debug.Log`, dialogs, `Undo`, `EditorUtility.SetDirty` on a component, `Menu.SetChecked`, `SaveAssets`. Logs and dialogs are returned values; dirty scenes, saved prefabs and the menu tick are state.
- `SerializedObject`/`SerializedProperty` lookups always find the `link`, `targetScene`, `sceneGuid` and `targetDoorId` properties. The `continue` branches for a missing property are not modelled, and neither are null or destroyed `Door` components in a list.
- A null string is the empty string. No check in the core treats the two differently.
- Decimal.ParseInt32: leading or trailing white space, which `int.TryParse` accepts, makes the text unparsable here.
- SceneNoteMenus.NoteNumber: `child.name.StartsWith("Note")` uses the current culture's comparison. The model tests an ordinal prefix, the same for the ASCII names a note menu creates.
- DoorBuildValidator.Report: `AppendLine` ends each line with `Environment.NewLine` (`\r\n` on Windows). The model uses `\n`.
- DoorIdUtils.GenerateId: `random.NextDouble() * 36` is a nondeterministic index in [0, 36]. The distribution is not modelled.
- EditorWorld.World.Acquire: `EditorSceneManager.OpenScene` on a scene already listed but unloaded is modelled as a new slot. Unity reuses the slot in place.
- Opening a scene is assumed to succeed. A scene that fails to open, and exceptions thrown by actions, are not modelled.
- `DoorChangeIdWindow.OnGUI` is not modelled: the help boxes, the text field, and the Cancel button, which only closes the window. `Show` and `Apply` are modelled.
- `DoorChangeIdWindow` calls `DoorValidator.GetSceneGuid`, a method that does not exist. The model uses `DoorEditorUtils.GetSceneGuid`, the only definition.
- A rename of a door that sits on a prefab asset stops at the "not in a valid scene" guard. The model represents such a door only by that handle.
- `Door.TravelToTarget`, `Door.NotifyEntered` and `DoorTravelService` are not modelled. They rely on asynchronous scene loading and a global player lookup.
- Door.OnValidate: `Application.isPlaying`, `PrefabUtility.IsPartOfPrefabAsset` and the corresponding source door are parameters.
- Strings.OrdinalLe: orders by code point. `string.CompareOrdinal` orders by UTF-16 code unit, and the two differ when a character beyond U+FFFF (stored as surrogates 0xD800-0xDFFF) meets one in U+E000-U+FFFF. Only ids that fail `IsValidId` can hold such characters, and `SceneDoorCaches.SortById` and `SortedInfos` inherit the difference.
- SceneDoorCaches.SortById: `List.Sort` is an unstable sort. The model uses an insertion sort. Its contract fixes only sortedness and the multiset, and the order of ids is proved independent of the tie order. Cache times are reals.
- `StateMachineService` is modelled over machines of one state type. The source keeps machines of different types in one list.
- `Time.deltaTime`, `timeSinceStartup`, and which owners are destroyed are parameters.
- Floating-point times, health values and frame durations are `real`. A frame rate of 0 gives an infinite frame duration. Rounding is not modelled.
- SimpleStateMachines.ProgressOf: for a zero delay, it follows the floating-point infinities (remaining time > 0 gives 0, otherwise 1). A zero remaining time over a zero delay, as right after `GoLater(0, s)` (SimpleStateMachine.cs:73-74), is NaN (0/0) in the source, which `Mathf.Clamp01` passes through. A real has no NaN, and the model gives 0.
- Damageable knockback physics, `DisplayInvulnerability`, `Destroy(gameObject)` and `onHit` are left out. Knockback is the hit outcome; destruction is the `destroyRequested` flag.
- The damage amount is a parameter. The source reads it from a `Damager` member that the shown `Damager` does not have.
- PatternGridTiles.TileIndex: coordinates, offsets and sizes are unbounded integers. The `int` overflow of `position - offset` and of `w * h` is not modelled.
- `PatternGridTile.RefreshTile` is not modelled.
- `OnDrawGizmos` of `Switch` and `GroundPatrolPath`, `InteractableBase.Awake` (the collider trigger flag), and `PatrolPoint` delays are not modelled.
- `ObjectBrushWindow` beyond the palette state and the hierarchy helpers is not modelled: drawing, painting, snapping, raycasts, reorderable lists, per-scene parent settings, and scene-change events.
- The `categories == null` branch of `OnEnable` is the empty list.
- The scene hierarchy is a tree of names. Unity's `Transform.Find` also accepts a path, but each part here holds no `/`, so it looks up a direct child only.

## Findings

| source | as written | input that shows it | evidently intended | confidence | as-written member | corrected member |
|---|---|---|---|---|---|---|
| Assets/Editor/Doors/DoorValidationMenu.cs:17 | The filter skips only invalid scenes and scenes without a path. A scene listed in the hierarchy but not loaded is validated, and `GetRootGameObjects` fails on it. | A hierarchy slot `Scene("Assets/Scenes/Level.unity", valid, not loaded)` | Skip unloaded scenes too, as the play-mode check does (`!scene.IsValid() \|\| !scene.isLoaded`) | not executed | DoorValidationMenu.AsWrittenAdmitsUnloadedScene | DoorValidationMenu.ValidateOpenScenes |
| Assets/Editor/SceneNoteMenu.cs:49 | `maxIndex + 1` is unchecked `int` addition. After a child `Note2147483647`, the next name is `Note-2147483648`. `int.TryParse` reads its number as `int.MinValue`, which is not larger than the maximum, so every later call yields that same name again. | Children `["Note2147483647"]` | A name whose number exceeds every existing one, with no repetition | not executed | SceneNoteMenus.AsWrittenRepeatsAfterIntMax | SceneNoteMenus.GetNextNoteName |
| Assets/Editor/ObjectBrush/ObjectBrushWindow.cs:1151 | `maxIndex + 1` is unchecked `int` addition. With an object named `Barrel_2147483647`, the next instance index is `int.MinValue`, smaller than the existing one. | A scene with one root named `Barrel_2147483647`, base name `Barrel` | An index larger than every instance number in the scene | not executed | ObjectBrushHierarchy.AsWrittenInstanceIndexWraps | ObjectBrushHierarchy.GetNextInstanceIndex |
| Assets/Prefabs/Characters/Sharky/GroundPatrolPath.cs:38-56 | `NextTarget` turns and calls itself whenever the step leaves the list. From a target more than one step outside the list, neither direction lands inside, so it recurses without end. | Target index 5 after the public `Points` list is cut down to two entries | Bring the target back into the list instead of recursing: from outside, walk back in at the nearer end | not executed | GroundPatrolPaths.TurnsForeverOutside | GroundPatrolPaths.AdvanceCorrected |
