/**
 * `SceneDoorCache`: the editor-side list of the doors of a scene, for the target-door dropdown.
 * A list is computed by opening the scene if needed, collecting one entry per door and sorting
 * the entries by door id in ordinal order; it is kept per scene GUID for two seconds of editor
 * time. The clock (`timeSinceStartup`) and `isPlayingOrWillChangePlaymode` are parameters.
 */
module SceneDoorCaches {
  import opened Strings
  import opened Assets
  import opened Doors
  import opened DoorUtils
  import opened EditorWorld

  /** A dropdown entry: the door id and the label (`caption`) shown for it. */
  datatype DoorInfo = DoorInfo(doorId: string, caption: string)

  /** A cached list and the editor time it was computed at. */
  datatype CacheEntry = CacheEntry(time: real, doors: seq<DoorInfo>)

  /** How long a cached list is served, in seconds of editor time. */
  const CacheTtlSeconds: real := 2.0

  /** The label shown for a blank id. */
  const EmptyIdLabel: string := "<empty>"

  /** The id part of a label: the id, or `<empty>` for a blank one. */
  function LabelId(id: string): string {
    if IsBlank(id) then EmptyIdLabel else id
  }

  /** `"{labelId} ({objectName})"`: three characters longer than the id part and the object
      name together, and closed by a parenthesis. */
  function Label(d: Door): (l: string)
    ensures |l| == |LabelId(d.doorId)| + |d.name| + 3 && l[|l| - 1] == ')'
  {
    LabelId(d.doorId) + " (" + d.name + ")"
  }

  /** The label starts with the id part, then the object name in parentheses. */
  lemma LabelShape(d: Door)
    ensures var l := Label(d); var n := |LabelId(d.doorId)|;
      l[..n] == LabelId(d.doorId) && l[n..n + 2] == " (" && l[n + 2..|l| - 1] == d.name
    ensures !IsBlank(d.doorId) ==> Label(d)[..|d.doorId|] == d.doorId
  {
  }

  /** The entries of the doors, in the same order. */
  function Infos(doors: seq<Door>): (r: seq<DoorInfo>)
    ensures |r| == |doors|
    ensures forall i :: 0 <= i < |doors| ==> r[i] == DoorInfo(doors[i].doorId, Label(doors[i]))
  {
    if |doors| == 0 then [] else Infos(doors[..|doors| - 1]) + [DoorInfo(doors[|doors| - 1].doorId, Label(doors[|doors| - 1]))]
  }

  /** The entries are in ordinal order of their ids. */
  predicate SortedById(s: seq<DoorInfo>) {
    forall i, j :: 0 <= i < j < |s| ==> OrdinalLe(s[i].doorId, s[j].doorId)
  }

  /** Each entry is in ordinal order with the next one. */
  predicate AdjacentSorted(s: seq<DoorInfo>) {
    forall k :: 0 < k < |s| ==> OrdinalLe(s[k - 1].doorId, s[k].doorId)
  }

  /** Ordered neighbours make an ordered list, since the ordinal order is transitive. */
  lemma {:induction false} AdjacentIsSorted(s: seq<DoorInfo>)
    requires AdjacentSorted(s)
    ensures SortedById(s)
  {
    if |s| > 1 {
      var p := s[..|s| - 1];
      assert AdjacentSorted(p);
      AdjacentIsSorted(p);
      forall i | 0 <= i < |s| - 1
        ensures OrdinalLe(s[i].doorId, s[|s| - 1].doorId)
      {
        if i < |s| - 2 {
          assert p[i] == s[i] && p[|s| - 2] == s[|s| - 2];
          OrdinalLeTransitive(s[i].doorId, s[|s| - 2].doorId, s[|s| - 1].doorId);
        }
      }
    }
  }

  /**
   * `list.Sort` with `string.CompareOrdinal` on the ids: afterwards the entries are in ordinal
   * order and are the same entries as before. (The library sort is not stable; the contract
   * does not fix the order of entries with equal ids.)
   */
  method SortById(a: array<DoorInfo>)
    modifies a
    ensures SortedById(a[..])
    ensures multiset(a[..]) == multiset(old(a[..]))
  {
    var i := 0;
    while i < a.Length
      invariant 0 <= i <= a.Length
      invariant AdjacentSorted(a[..i])
      invariant multiset(a[..]) == multiset(old(a[..]))
    {
      InsertAt(a, i);
      i := i + 1;
    }
    assert a[..a.Length] == a[..];
    AdjacentIsSorted(a[..]);
  }

  /** One insertion step: the entry at `i` moves left past every entry ordered after it. */
  method InsertAt(a: array<DoorInfo>, i: nat)
    requires i < a.Length && AdjacentSorted(a[..i])
    modifies a
    ensures AdjacentSorted(a[..i + 1])
    ensures multiset(a[..]) == multiset(old(a[..]))
  {
    var j := i;
    StartSinking(a[..], i);
    while j > 0 && !OrdinalLe(a[j - 1].doorId, a[j].doorId)
      invariant 0 <= j <= i
      invariant multiset(a[..]) == multiset(old(a[..]))
      invariant SortedAround(a[..], i, j)
    {
      SinkOne(a, i, j);
      j := j - 1;
    }
    DoneSinking(a[..], i, j);
  }

  /** While the entry from `i` sinks at `j`: the entries before `j` and those after it up to
      `i` are in order, and the ones on either side of `j` too. */
  predicate SortedAround(s: seq<DoorInfo>, i: nat, j: nat)
    requires j <= i < |s|
  {
    (forall k :: 0 < k < j ==> OrdinalLe(s[k - 1].doorId, s[k].doorId)) &&
    (forall k :: j < k <= i ==> OrdinalLe(s[k - 1].doorId, s[k].doorId)) &&
    (0 < j < i ==> OrdinalLe(s[j - 1].doorId, s[j + 1].doorId))
  }

  /** Before the entry at `i` moves, everything before it is in order. */
  lemma StartSinking(s: seq<DoorInfo>, i: nat)
    requires i < |s| && AdjacentSorted(s[..i])
    ensures SortedAround(s, i, i)
  {
    forall k | 0 < k < i
      ensures OrdinalLe(s[k - 1].doorId, s[k].doorId)
    {
      assert s[..i][k - 1] == s[k - 1] && s[..i][k] == s[k];
    }
  }

  /** Once the entry stops after an entry ordered before it (or at the front), the first
      `i + 1` entries are in order. */
  lemma DoneSinking(s: seq<DoorInfo>, i: nat, j: nat)
    requires j <= i < |s| && SortedAround(s, i, j)
    requires j == 0 || OrdinalLe(s[j - 1].doorId, s[j].doorId)
    ensures AdjacentSorted(s[..i + 1])
  {
    var p := s[..i + 1];
    forall k | 0 < k < |p|
      ensures OrdinalLe(p[k - 1].doorId, p[k].doorId)
    {
      assert p[k - 1] == s[k - 1] && p[k] == s[k];
    }
  }

  /** The entry at `j` is ordered before its predecessor: exchanging them moves it one place
      left and keeps the order around it. */
  method SinkOne(a: array<DoorInfo>, i: nat, j: nat)
    requires 0 < j <= i < a.Length && SortedAround(a[..], i, j)
    requires !OrdinalLe(a[j - 1].doorId, a[j].doorId)
    modifies a
    ensures SortedAround(a[..], i, j - 1)
    ensures multiset(a[..]) == multiset(old(a[..]))
  {
    OrdinalLeTotal(a[j - 1].doorId, a[j].doorId);
    SwapWithPrevious(a, j);
  }

  /** Exchanges the entry at `j` with the one before it. */
  method SwapWithPrevious(a: array<DoorInfo>, j: nat)
    requires 0 < j < a.Length
    modifies a
    ensures a[j - 1] == old(a[j]) && a[j] == old(a[j - 1])
    ensures forall k :: 0 <= k < a.Length && k != j - 1 && k != j ==> a[k] == old(a[k])
    ensures multiset(a[..]) == multiset(old(a[..]))
  {
    a[j - 1], a[j] := a[j], a[j - 1];
  }

  /** The ids of the entries, in order. */
  function Ids(s: seq<DoorInfo>): (r: seq<string>)
    ensures |r| == |s| && forall i :: 0 <= i < |s| ==> r[i] == s[i].doorId
  {
    seq(|s|, i requires 0 <= i < |s| => s[i].doorId)
  }

  /** Ids ordinally between two equal ids are that id. */
  lemma Squeezed(a: string, b: string, c: string)
    requires OrdinalLe(a, b) && OrdinalLe(b, c) && a == c
    ensures b == a
  {
    OrdinalLeAntisymmetric(a, b);
  }

  /** Dropping one entry from a sorted list leaves a sorted list of the remaining entries. */
  lemma SortedRemove(t: seq<DoorInfo>, k: nat)
    requires SortedById(t) && k < |t|
    ensures var rest := t[..k] + t[k + 1..];
      |rest| == |t| - 1 && SortedById(rest) &&
      (forall j :: 0 <= j < k ==> rest[j] == t[j]) && (forall j :: k <= j < |rest| ==> rest[j] == t[j + 1])
  {
    var rest := t[..k] + t[k + 1..];
    forall i, j | 0 <= i < j < |rest|
      ensures OrdinalLe(rest[i].doorId, rest[j].doorId)
    {
      var i' := if i < k then i else i + 1;
      var j' := if j < k then j else j + 1;
      assert rest[i] == t[i'] && rest[j] == t[j'];
    }
  }

  /** Dropping one element takes one occurrence of it out of the multiset. */
  lemma MultisetRemove<T>(t: seq<T>, k: nat)
    requires k < |t|
    ensures multiset(t[..k] + t[k + 1..]) == multiset(t) - multiset{t[k]}
  {
    assert t == t[..k] + [t[k]] + t[k + 1..];
  }

  /** The entries after the first of a sorted list are sorted. */
  lemma SortedTail(s: seq<DoorInfo>)
    requires SortedById(s) && |s| > 0
    ensures SortedById(s[1..])
  {
    var tail := s[1..];
    forall i, j | 0 <= i < j < |tail|
      ensures OrdinalLe(tail[i].doorId, tail[j].doorId)
    {
      assert tail[i] == s[i + 1] && tail[j] == s[j + 1];
    }
  }

  /** The elements after the first are the others. */
  lemma MultisetTail<T>(s: seq<T>)
    requires |s| > 0
    ensures multiset(s[1..]) == multiset(s) - multiset{s[0]}
  {
    assert s == [s[0]] + s[1..];
  }

  /**
   * The listing's order of ids does not depend on how the sort breaks ties: any two sorted
   * arrangements of the same entries have the same sequence of ids.
   */
  lemma {:induction false} SortedPermutationsAgree(s: seq<DoorInfo>, t: seq<DoorInfo>)
    requires SortedById(s) && SortedById(t) && multiset(s) == multiset(t)
    ensures Ids(s) == Ids(t)
    decreases |s|
  {
    assert |s| == |multiset(s)| == |multiset(t)| == |t|;
    if |s| == 0 {
      return;
    }
    var x := s[0];
    assert x in multiset(t);
    var k :| 0 <= k < |t| && t[k] == x;
    LeadingRun(s, t, k);
    var rest := t[..k] + t[k + 1..];
    SortedRemove(t, k);
    MultisetRemove(t, k);
    SortedTail(s);
    MultisetTail(s);
    assert multiset(s[1..]) == multiset(rest);
    SortedPermutationsAgree(s[1..], rest);
    IdsAfterRemove(s, t, k);
  }

  /** When `t[k]` is the least entry of `s`, every entry of `t` up to `k` has its id. */
  lemma LeadingRun(s: seq<DoorInfo>, t: seq<DoorInfo>, k: nat)
    requires SortedById(s) && SortedById(t) && multiset(s) == multiset(t)
    requires 0 < |s| && k < |t| && t[k] == s[0]
    ensures forall j :: 0 <= j <= k ==> t[j].doorId == s[0].doorId
  {
    var x := s[0];
    assert t[0] in multiset(s);
    var m :| 0 <= m < |s| && s[m] == t[0];
    OrdinalLeTotal(x.doorId, x.doorId);
    assert OrdinalLe(t[0].doorId, x.doorId) by {
      if k > 0 { assert OrdinalLe(t[0].doorId, t[k].doorId); }
    }
    assert OrdinalLe(x.doorId, t[0].doorId) by {
      if m > 0 { assert OrdinalLe(s[0].doorId, s[m].doorId); }
    }
    OrdinalLeAntisymmetric(x.doorId, t[0].doorId);
    forall j | 0 <= j <= k
      ensures t[j].doorId == x.doorId
    {
      if 0 < j < k {
        assert OrdinalLe(t[0].doorId, t[j].doorId) && OrdinalLe(t[j].doorId, t[k].doorId);
        Squeezed(t[0].doorId, t[j].doorId, t[k].doorId);
      }
    }
  }

  /** Putting back the entry dropped at `k` of a run of equal ids restores the id sequence. */
  lemma IdsAfterRemove(s: seq<DoorInfo>, t: seq<DoorInfo>, k: nat)
    requires |s| == |t| && 0 < |s| && k < |t|
    requires forall j :: 0 <= j <= k ==> t[j].doorId == s[0].doorId
    requires Ids(s[1..]) == Ids(t[..k] + t[k + 1..])
    ensures Ids(s) == Ids(t)
  {
    var rest := t[..k] + t[k + 1..];
    forall j | 0 <= j < |t|
      ensures Ids(s)[j] == Ids(t)[j]
    {
      if j > 0 {
        assert Ids(s)[j] == Ids(s[1..])[j - 1] == Ids(rest)[j - 1];
        if j - 1 < k {
          assert rest[j - 1] == t[j - 1];
        } else {
          assert rest[j - 1] == t[j];
        }
      }
    }
  }

  /** The entries of the doors, one per door, sorted by id. */
  method SortedInfos(found: seq<Door>) returns (doors: seq<DoorInfo>)
    ensures SortedById(doors)
    ensures multiset(doors) == multiset(Infos(found))
  {
    var list := InfoArray(found);
    SortById(list);
    doors := list[..];
  }

  /** The loop of `LoadDoorsFromSceneGuid` that builds the entries, in door order. */
  method InfoArray(found: seq<Door>) returns (list: array<DoorInfo>)
    ensures fresh(list) && list[..] == Infos(found)
  {
    list := new DoorInfo[|found|](i => DoorInfo("", ""));
    var i := 0;
    while i < |found|
      invariant 0 <= i <= |found|
      invariant forall k :: 0 <= k < i ==> list[k] == DoorInfo(found[k].doorId, Label(found[k]))
    {
      list[i] := DoorInfo(found[i].doorId, Label(found[i]));
      i := i + 1;
    }
  }

  /** The GUID names no scene (blank path), a scene already open, or a scene asset that can be opened. */
  predicate Openable(w: World, sceneGuid: Guid)
    reads w
  {
    var path := w.assets.GuidToAssetPath(sceneGuid);
    IsBlank(path) || w.IsLoadedPath(path) || path in w.sceneContents
  }

  /** The entries a fresh listing holds, before sorting: nothing for a GUID without a path,
      otherwise one entry per door of the scene, root by root. */
  function Listed(db: AssetDb, contents: SceneContents, sceneGuid: Guid): seq<DoorInfo>
  {
    var path := db.GuidToAssetPath(sceneGuid);
    if IsBlank(path) || path !in contents then [] else Infos(Flatten(contents[path]))
  }

  /**
   * `LoadDoorsFromSceneGuid`: the scene's entries sorted by id; a scene that was not open is
   * opened for the listing and closed again, so the hierarchy ends as it began.
   */
  method LoadDoorsFromSceneGuid(w: World, sceneGuid: Guid) returns (doors: seq<DoorInfo>)
    requires w.Valid() && Openable(w, sceneGuid)
    modifies w`hierarchy
    ensures w.Valid() && w.hierarchy == old(w.hierarchy)
    ensures SortedById(doors)
    ensures multiset(doors) == multiset(Listed(w.assets, w.sceneContents, sceneGuid))
  {
    var path := w.assets.GuidToAssetPath(sceneGuid);
    if IsBlank(path) {
      return [];
    }
    var scene, openedHere := w.Acquire(path);
    var found := GetDoorsInScene(w.sceneContents, scene);
    doors := SortedInfos(found);
    w.Release(scene, openedHere);
  }

  class SceneDoorCache {
    var cache: map<Guid, CacheEntry>

    /** Every cached list is sorted by id. */
    ghost predicate Valid()
      reads this
    {
      forall g :: g in cache ==> SortedById(cache[g].doors)
    }

    constructor ()
      ensures Valid() && cache == map[]
    {
      cache := map[];
    }

    /** The list cached for the GUID is younger than the time to live. */
    predicate Fresh(sceneGuid: Guid, now: real)
      reads this
    {
      sceneGuid in cache && now - cache[sceneGuid].time < CacheTtlSeconds
    }

    /**
     * `GetDoorsByGuid`: nothing for a blank GUID or while entering play mode; the cached list
     * while it is fresh; otherwise a new listing, which is cached with the current time.
     */
    method GetDoorsByGuid(w: World, sceneGuid: Guid, now: real, isPlayingOrWillChangePlaymode: bool)
      returns (doors: seq<DoorInfo>)
      requires Valid() && w.Valid() && Openable(w, sceneGuid)
      modifies this`cache, w`hierarchy
      ensures Valid() && w.Valid() && w.hierarchy == old(w.hierarchy)
      ensures SortedById(doors)
      ensures IsBlank(sceneGuid) || isPlayingOrWillChangePlaymode ==> doors == [] && cache == old(cache)
      ensures !IsBlank(sceneGuid) && !isPlayingOrWillChangePlaymode && old(Fresh(sceneGuid, now)) ==>
        doors == old(cache[sceneGuid].doors) && cache == old(cache)
      ensures !IsBlank(sceneGuid) && !isPlayingOrWillChangePlaymode && !old(Fresh(sceneGuid, now)) ==>
        multiset(doors) == multiset(Listed(w.assets, w.sceneContents, sceneGuid)) &&
        cache == old(cache)[sceneGuid := CacheEntry(now, doors)]
    {
      if IsBlank(sceneGuid) || isPlayingOrWillChangePlaymode {
        return [];
      }
      if Fresh(sceneGuid, now) {
        return cache[sceneGuid].doors;
      }
      doors := LoadDoorsFromSceneGuid(w, sceneGuid);
      cache := cache[sceneGuid := CacheEntry(now, doors)];
    }

    /** `InvalidateAll`: every cached list is dropped. */
    method InvalidateAll()
      modifies this`cache
      ensures Valid() && cache == map[]
    {
      cache := map[];
    }
  }
}
