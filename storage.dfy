/** LearningPathStorage on Android (SharedPreferences) and iOS
    (NSUserDefaults): the saved learning paths live under one key as a JSON
    list, and a second key records that the welcome screen was seen.

    The key-value store is modelled by the value each key holds. JSON is
    abstracted: a stored list reads back as the list that was written, and
    a value that does not decode reads back as "undecodable". */
module Storage {
  import opened Domain
  import opened Chunking

  /** What the `saved_learning_paths` key holds when it is set. */
  datatype StoredPaths = Encoded(paths: seq<LearningPath>) | Undecodable

  /** `loadAllLearningPaths()`: the decoded list, or nothing when the key
      is missing or its value does not decode. */
  function Decoded(stored: Option<StoredPaths>): (r: seq<LearningPath>)
    ensures stored.None? ==> r == []
    ensures stored == Some(Undecodable) ==> r == []
    ensures stored.Some? && stored.value.Encoded? ==> r == stored.value.paths
  {
    match stored
    case Some(Encoded(paths)) => paths
    case _ => []
  }

  /** `removeAll { it.id == id }`. */
  function WithoutId(paths: seq<LearningPath>, id: string): seq<LearningPath>
    decreases |paths|
  {
    if paths == [] then []
    else if paths[0].id == id then WithoutId(paths[1..], id)
    else [paths[0]] + WithoutId(paths[1..], id)
  }

  /** `removeAll { it.id == path.id }` followed by `add(path)`. */
  function Upsert(paths: seq<LearningPath>, path: LearningPath): seq<LearningPath> {
    WithoutId(paths, path.id) + [path]
  }

  /** How many paths carry the id. */
  function CountId(paths: seq<LearningPath>, id: string): nat
    decreases |paths|
  {
    if paths == [] then 0
    else (if paths[0].id == id then 1 else 0) + CountId(paths[1..], id)
  }

  lemma {:induction false} CountIdAppend(paths: seq<LearningPath>, path: LearningPath, id: string)
    ensures CountId(paths + [path], id) == CountId(paths, id) + (if path.id == id then 1 else 0)
    decreases |paths|
  {
    if paths == [] {
      assert ([] + [path])[1..] == [];
    } else {
      assert (paths + [path])[1..] == paths[1..] + [path];
      CountIdAppend(paths[1..], path, id);
    }
  }

  /** Removing an id keeps exactly the paths with other ids, in their
      order, and drops as many paths as carried the id. */
  lemma {:induction false} WithoutIdSpec(paths: seq<LearningPath>, id: string)
    ensures var r := WithoutId(paths, id);
      && (forall p :: p in r <==> p in paths && p.id != id)
      && IsSubsequence(r, paths)
      && |r| == |paths| - CountId(paths, id)
      && CountId(r, id) == 0
    decreases |paths|
  {
    if paths != [] {
      var rest := WithoutId(paths[1..], id);
      WithoutIdSpec(paths[1..], id);
      assert paths == [paths[0]] + paths[1..];
      if paths[0].id != id {
        assert ([paths[0]] + rest)[1..] == rest;
      }
    }
  }

  lemma {:induction false} WithoutIdAppend(paths: seq<LearningPath>, path: LearningPath, id: string)
    ensures WithoutId(paths + [path], id) == WithoutId(paths, id) + (if path.id == id then [] else [path])
    decreases |paths|
  {
    if paths == [] {
      assert ([] + [path])[1..] == [];
    } else {
      assert (paths + [path])[1..] == paths[1..] + [path];
      WithoutIdAppend(paths[1..], path, id);
    }
  }

  /** Removing an id twice is removing it once. */
  lemma {:induction false} WithoutIdIdempotent(paths: seq<LearningPath>, id: string)
    ensures WithoutId(WithoutId(paths, id), id) == WithoutId(paths, id)
    decreases |paths|
  {
    if paths != [] {
      var rest := WithoutId(paths[1..], id);
      WithoutIdIdempotent(paths[1..], id);
      if paths[0].id != id {
        assert ([paths[0]] + rest)[1..] == rest;
      }
    }
  }

  /** Removing an id no path carries leaves the list as it is. */
  lemma {:induction false} WithoutAbsentId(paths: seq<LearningPath>, id: string)
    requires forall i :: 0 <= i < |paths| ==> paths[i].id != id
    ensures WithoutId(paths, id) == paths
    decreases |paths|
  {
    if paths != [] {
      WithoutAbsentId(paths[1..], id);
      assert [paths[0]] + paths[1..] == paths;
    }
  }

  /** After a save exactly one path has the saved id, and it is the saved
      path, last; before it stand the other paths in their old order. */
  lemma {:induction false} UpsertSpec(paths: seq<LearningPath>, path: LearningPath)
    ensures var r := Upsert(paths, path);
      && r[|r| - 1] == path
      && r[..|r| - 1] == WithoutId(paths, path.id)
      && CountId(r, path.id) == 1
      && (forall p :: p in r && p.id == path.id ==> p == path)
      && (forall p :: p in paths && p.id != path.id ==> p in r)
  {
    var r := Upsert(paths, path);
    WithoutIdSpec(paths, path.id);
    CountIdAppend(WithoutId(paths, path.id), path, path.id);
    assert r[..|r| - 1] == WithoutId(paths, path.id);
  }

  /** Saving the same path twice is saving it once. */
  lemma {:induction false} UpsertIdempotent(paths: seq<LearningPath>, path: LearningPath)
    ensures Upsert(Upsert(paths, path), path) == Upsert(paths, path)
  {
    var once := Upsert(paths, path);
    var rest := WithoutId(paths, path.id);
    WithoutIdSpec(paths, path.id);
    WithoutIdAppend(rest, path, path.id);
    WithoutIdIdempotent(paths, path.id);
  }

  /** The Android store. */
  class AndroidLearningPathStorage {
    /** The `saved_learning_paths` preference. */
    var savedPaths: Option<StoredPaths>
    /** The `has_seen_welcome` preference (false when unset). */
    var hasSeenWelcome: bool

    constructor (savedPaths: Option<StoredPaths>, hasSeenWelcome: bool)
      ensures this.savedPaths == savedPaths && this.hasSeenWelcome == hasSeenWelcome
    {
      this.savedPaths := savedPaths;
      this.hasSeenWelcome := hasSeenWelcome;
    }

    /** `isFirstLaunch()`: forced to true, whatever the preference says. */
    method IsFirstLaunch() returns (r: bool)
      ensures r
    {
      r := true;
    }

    method MarkWelcomeAsSeen()
      modifies this
      ensures hasSeenWelcome && savedPaths == old(savedPaths)
    {
      hasSeenWelcome := true;
    }

    method LoadAllLearningPaths() returns (paths: seq<LearningPath>)
      ensures paths == Decoded(savedPaths)
      ensures savedPaths.None? || savedPaths == Some(Undecodable) ==> paths == []
    {
      match savedPaths {
        case Some(Encoded(decoded)) => paths := decoded;
        case _ => paths := [];
      }
    }

    /** `saveLearningPath(path)`: the saved list without the path's id,
        then the path, written back. */
    method SaveLearningPath(learningPath: LearningPath)
      modifies this
      ensures savedPaths == Some(Encoded(Upsert(Decoded(old(savedPaths)), learningPath)))
      ensures hasSeenWelcome == old(hasSeenWelcome)
    {
      var currentPaths := LoadAllLearningPaths();
      currentPaths := WithoutId(currentPaths, learningPath.id);
      currentPaths := currentPaths + [learningPath];
      savedPaths := Some(Encoded(currentPaths));
    }

    method DeleteLearningPath(learningPathId: string)
      modifies this
      ensures savedPaths == Some(Encoded(WithoutId(Decoded(old(savedPaths)), learningPathId)))
      ensures hasSeenWelcome == old(hasSeenWelcome)
    {
      var currentPaths := LoadAllLearningPaths();
      currentPaths := WithoutId(currentPaths, learningPathId);
      savedPaths := Some(Encoded(currentPaths));
    }

    method ClearAll()
      modifies this
      ensures savedPaths == None && Decoded(savedPaths) == []
      ensures hasSeenWelcome == old(hasSeenWelcome)
    {
      savedPaths := None;
    }
  }

  /** The iOS store, a singleton over the standard user defaults. */
  class IosLearningPathStorage {
    /** The `saved_learning_paths` default. */
    var savedPaths: Option<StoredPaths>
    /** The `has_seen_welcome` default (false when unset). */
    var hasSeenWelcome: bool

    constructor (savedPaths: Option<StoredPaths>, hasSeenWelcome: bool)
      ensures this.savedPaths == savedPaths && this.hasSeenWelcome == hasSeenWelcome
    {
      this.savedPaths := savedPaths;
      this.hasSeenWelcome := hasSeenWelcome;
    }

    /** `isFirstLaunch()`: until the welcome screen is marked as seen. */
    method IsFirstLaunch() returns (r: bool)
      ensures r == !hasSeenWelcome
    {
      r := !hasSeenWelcome;
    }

    method MarkWelcomeAsSeen()
      modifies this
      ensures hasSeenWelcome && savedPaths == old(savedPaths)
    {
      hasSeenWelcome := true;
    }

    method LoadAllLearningPaths() returns (paths: seq<LearningPath>)
      ensures paths == Decoded(savedPaths)
      ensures savedPaths.None? || savedPaths == Some(Undecodable) ==> paths == []
    {
      match savedPaths {
        case Some(Encoded(decoded)) => paths := decoded;
        case _ => paths := [];
      }
    }

    method SaveLearningPath(learningPath: LearningPath)
      modifies this
      ensures savedPaths == Some(Encoded(Upsert(Decoded(old(savedPaths)), learningPath)))
      ensures hasSeenWelcome == old(hasSeenWelcome)
    {
      var currentPaths := LoadAllLearningPaths();
      currentPaths := WithoutId(currentPaths, learningPath.id);
      currentPaths := currentPaths + [learningPath];
      savedPaths := Some(Encoded(currentPaths));
    }

    method DeleteLearningPath(learningPathId: string)
      modifies this
      ensures savedPaths == Some(Encoded(WithoutId(Decoded(old(savedPaths)), learningPathId)))
      ensures hasSeenWelcome == old(hasSeenWelcome)
    {
      var currentPaths := LoadAllLearningPaths();
      currentPaths := WithoutId(currentPaths, learningPathId);
      savedPaths := Some(Encoded(currentPaths));
    }

    method ClearAll()
      modifies this
      ensures savedPaths == None && Decoded(savedPaths) == []
      ensures hasSeenWelcome == old(hasSeenWelcome)
    {
      savedPaths := None;
    }
  }

  /** A save followed by a load reads back the path last, once; a delete
      followed by a load reads back no path with the id; a clear reads back
      nothing. Stated over the two stores' common operations. */
  lemma {:induction false} StoreRoundTrips(stored: Option<StoredPaths>, path: LearningPath, id: string)
    ensures var saved := Decoded(Some(Encoded(Upsert(Decoded(stored), path))));
      saved != [] && saved[|saved| - 1] == path && CountId(saved, path.id) == 1
    ensures CountId(Decoded(Some(Encoded(WithoutId(Decoded(stored), id)))), id) == 0
    ensures Decoded(None) == []
  {
    UpsertSpec(Decoded(stored), path);
    WithoutIdSpec(Decoded(stored), id);
  }
}
