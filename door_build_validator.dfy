/**
 * `DoorBuildValidator`: before a build, every scene asset of the project is validated (opened
 * for the purpose when it is not loaded, and closed again); the build fails when any scene
 * has an error, with a message giving the error count and one line per error.
 */
module DoorBuildValidator {
  import opened Strings
  import opened Assets
  import opened DoorUtils
  import opened EditorWorld
  import opened DoorValidator
  import Decimal

  /** The outcome of the pre-build hook: the build goes on, or fails with the given message. */
  datatype BuildResult = Passed | BuildFailed(errorCount: nat, message: string)

  /** The GUID resolves to a blank path or to a scene asset. */
  predicate Resolves(guid: Guid, db: AssetDb, contents: SceneContents) {
    IsBlank(db.GuidToAssetPath(guid)) || db.GuidToAssetPath(guid) in contents
  }

  /** Every scene GUID resolves to a blank path or to a scene asset. */
  predicate ScenesResolve(guids: seq<Guid>, db: AssetDb, contents: SceneContents) {
    forall i :: 0 <= i < |guids| ==> Resolves(guids[i], db, contents)
  }

  /** The errors one GUID contributes: none for a blank path, else its scene's validation. */
  function SceneErrors(guid: Guid, db: AssetDb, contents: SceneContents): seq<ValidationError>
    requires Resolves(guid, db, contents) && ScenesOpenable(db, contents)
  {
    var path := db.GuidToAssetPath(guid);
    if IsBlank(path) then [] else Validation(Flatten(contents[path]), path, db, contents)
  }

  /** The errors of the scenes of the GUIDs, scene by scene. */
  function BuildErrors(guids: seq<Guid>, db: AssetDb, contents: SceneContents): seq<ValidationError>
    requires ScenesResolve(guids, db, contents) && ScenesOpenable(db, contents)
  {
    if |guids| == 0 then []
    else BuildErrors(guids[..|guids| - 1], db, contents) + SceneErrors(guids[|guids| - 1], db, contents)
  }

  /** The messages of the errors, in order. */
  function Messages(errors: seq<ValidationError>): (ms: seq<string>)
    ensures |ms| == |errors| && forall i :: 0 <= i < |errors| ==> ms[i] == Message(errors[i])
  {
    seq(|errors|, i requires 0 <= i < |errors| => Message(errors[i]))
  }

  /** `StringBuilder.AppendLine` of every message, in order: empty without errors, and
      otherwise ending with the last message's full stop and a line break. */
  function Report(errors: seq<ValidationError>): (r: string)
    ensures r == [] <==> |errors| == 0
    ensures |errors| > 0 ==> |r| >= 2 && r[|r| - 1] == '\n' && r[|r| - 2] == '.'
  {
    var ms := Messages(errors);
    assert |errors| > 0 ==> ms[|ms| - 1] == Message(errors[|errors| - 1]);
    Lines(ms)
  }

  /** When no message contains a line break, the report splits into one line per error, in
      order, and the empty rest after the last line break. */
  lemma ReportLines(errors: seq<ValidationError>)
    requires forall i :: 0 <= i < |errors| ==> '\n' !in Message(errors[i])
    ensures Split(Report(errors), '\n') == Messages(errors) + [""]
  {
    LinesSplit(Messages(errors));
  }

  /** The start of the build failure's text. */
  const FailurePrefix: string := "Doors validation failed ("

  /** The text of the build failure: the count of errors, then the report. */
  function FailureMessage(errorCount: nat, report: string): (r: string)
    ensures |FailurePrefix| + |" errors): "| + |report| < |r|
    ensures StartsWith(r, FailurePrefix) && r[|r| - |report|..] == report
    ensures var count := r[|FailurePrefix|..|r| - |report| - |" errors): "|];
      Decimal.AllDigits(count) && Decimal.DigitsValue(count) == errorCount
  {
    var count := Decimal.DecimalString(errorCount);
    var r := FailurePrefix + count + " errors): " + report;
    Decimal.DecimalStringValue(errorCount);
    assert r[..|FailurePrefix|] == FailurePrefix;
    assert r[|FailurePrefix|..|r| - |report| - |" errors): "|] == count;
    assert r[|r| - |report|..] == report;
    r
  }

  /** Validates the scene at a non-blank path, opening and closing it when it is not loaded. */
  method ValidateSceneAt(w: World, path: Path) returns (errors: seq<ValidationError>)
    requires w.Valid() && path in w.sceneContents && ScenesOpenable(w.assets, w.sceneContents)
    modifies w`hierarchy
    ensures w.Valid() && w.hierarchy == old(w.hierarchy)
    ensures errors == Validation(Flatten(w.sceneContents[path]), path, w.assets, w.sceneContents)
  {
    var scene, openedHere := w.Acquire(path);
    errors := ValidateScene(w, scene);
    w.Release(scene, openedHere);
  }

  /** One iteration of the build loop: a GUID with a blank path is skipped, any other has its
      scene validated. */
  method ValidateGuid(w: World, guid: Guid) returns (errors: seq<ValidationError>)
    requires w.Valid() && ScenesOpenable(w.assets, w.sceneContents)
    requires Resolves(guid, w.assets, w.sceneContents)
    modifies w`hierarchy
    ensures w.Valid() && w.hierarchy == old(w.hierarchy)
    ensures errors == SceneErrors(guid, w.assets, w.sceneContents)
  {
    var path := w.assets.GuidToAssetPath(guid);
    if IsBlank(path) {
      errors := [];
    } else {
      errors := ValidateSceneAt(w, path);
    }
  }

  /**
   * `OnPreprocessBuild`: the build passes exactly when no scene asset has a validation error;
   * otherwise it fails with the number of errors and their messages, one per line, in scene
   * order. The hierarchy is left as it was.
   */
  method OnPreprocessBuild(w: World) returns (result: BuildResult)
    requires w.Valid() && ScenesOpenable(w.assets, w.sceneContents)
    requires ScenesResolve(w.sceneGuids, w.assets, w.sceneContents)
    modifies w`hierarchy
    ensures w.Valid() && w.hierarchy == old(w.hierarchy)
    ensures var errors := BuildErrors(w.sceneGuids, w.assets, w.sceneContents);
      (result.Passed? <==> |errors| == 0) &&
      (result.BuildFailed? ==> result.errorCount == |errors| &&
                               result.message == FailureMessage(|errors|, Report(errors)))
  {
    var all, errorCount := ValidateAllScenes(w);
    if errorCount > 0 {
      result := BuildFailed(errorCount, FailureMessage(errorCount, Report(all)));
    } else {
      result := Passed;
    }
  }

  /** The loop of `OnPreprocessBuild`: the errors of every scene asset, in scene order, and
      their count. */
  method ValidateAllScenes(w: World) returns (all: seq<ValidationError>, errorCount: nat)
    requires w.Valid() && ScenesOpenable(w.assets, w.sceneContents)
    requires ScenesResolve(w.sceneGuids, w.assets, w.sceneContents)
    modifies w`hierarchy
    ensures w.Valid() && w.hierarchy == old(w.hierarchy)
    ensures all == BuildErrors(w.sceneGuids, w.assets, w.sceneContents) && errorCount == |all|
  {
    all := [];
    errorCount := 0;
    var sceneGuids := w.sceneGuids;
    var i := 0;
    while i < |sceneGuids|
      invariant 0 <= i <= |sceneGuids|
      invariant w.Valid() && w.hierarchy == old(w.hierarchy)
      invariant all == BuildErrors(sceneGuids[..i], w.assets, w.sceneContents)
      invariant errorCount == |all|
    {
      BuildErrorsStep(sceneGuids, i, w.assets, w.sceneContents);
      var errors := ValidateGuid(w, sceneGuids[i]);
      all := all + errors;
      errorCount := errorCount + |errors|;
      i := i + 1;
    }
    assert sceneGuids[..|sceneGuids|] == sceneGuids;
  }

  /** The errors of one more scene are those of the scenes before it followed by its own. */
  lemma BuildErrorsStep(guids: seq<Guid>, i: nat, db: AssetDb, contents: SceneContents)
    requires i < |guids| && ScenesResolve(guids, db, contents) && ScenesOpenable(db, contents)
    ensures ScenesResolve(guids[..i], db, contents) && ScenesResolve(guids[..i + 1], db, contents)
    ensures Resolves(guids[i], db, contents)
    ensures BuildErrors(guids[..i + 1], db, contents) == BuildErrors(guids[..i], db, contents) + SceneErrors(guids[i], db, contents)
  {
    assert guids[..i + 1][..i] == guids[..i];
    assert guids[..i + 1][i] == guids[i];
  }

  /** The build passes exactly when every scene asset named by a GUID validates clean. */
  lemma BuildPassesIffAllClean(guids: seq<Guid>, db: AssetDb, contents: SceneContents)
    requires ScenesResolve(guids, db, contents) && ScenesOpenable(db, contents)
    ensures |BuildErrors(guids, db, contents)| == 0 <==>
      forall i :: 0 <= i < |guids| ==> SceneErrors(guids[i], db, contents) == []
  {
    if |BuildErrors(guids, db, contents)| == 0 {
      CleanBuildAllClean(guids, db, contents);
    }
    if forall i :: 0 <= i < |guids| ==> SceneErrors(guids[i], db, contents) == [] {
      AllCleanCleanBuild(guids, db, contents);
    }
  }

  /** A build without errors has no scene with an error. */
  lemma {:induction false} CleanBuildAllClean(guids: seq<Guid>, db: AssetDb, contents: SceneContents)
    requires ScenesResolve(guids, db, contents) && ScenesOpenable(db, contents)
    requires BuildErrors(guids, db, contents) == []
    ensures forall i :: 0 <= i < |guids| ==> SceneErrors(guids[i], db, contents) == []
  {
    if |guids| > 0 {
      var prefix := guids[..|guids| - 1];
      var last := guids[|guids| - 1];
      assert ScenesResolve(prefix, db, contents);
      var before := BuildErrors(prefix, db, contents);
      var here := SceneErrors(last, db, contents);
      assert before + here == [];
      assert |before| + |here| == 0;
      CleanBuildAllClean(prefix, db, contents);
      forall i | 0 <= i < |guids|
        ensures SceneErrors(guids[i], db, contents) == []
      {
        if i < |prefix| {
          assert prefix[i] == guids[i];
        } else {
          assert guids[i] == last;
        }
      }
    }
  }

  /** When no scene has an error, the build has none. */
  lemma {:induction false} AllCleanCleanBuild(guids: seq<Guid>, db: AssetDb, contents: SceneContents)
    requires ScenesResolve(guids, db, contents) && ScenesOpenable(db, contents)
    requires forall i :: 0 <= i < |guids| ==> SceneErrors(guids[i], db, contents) == []
    ensures BuildErrors(guids, db, contents) == []
  {
    if |guids| > 0 {
      var prefix := guids[..|guids| - 1];
      assert ScenesResolve(prefix, db, contents);
      assert forall i :: 0 <= i < |prefix| ==> prefix[i] == guids[i];
      AllCleanCleanBuild(prefix, db, contents);
    }
  }
}
