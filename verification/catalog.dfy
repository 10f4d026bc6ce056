/** The exercise catalog (exercise_categories.py): four categories in display order, each
    with its exercises and the level that unlocks them, and the three queries over it. The
    queries are loops over the catalog, proved against the functions `Availability`,
    `Lookup` and `AllIds`. */
module Catalog {
  import opened Wrappers
  import Sessions

  /** One exercise record; the prose fields (description, muscle groups, how-to, tips)
      are not part of this model. */
  datatype Entry = Entry(id: string, displayName: string, requiredLevel: int, difficulty: string, cameraPosition: string)

  datatype Category = Category(name: string, color: string, exercises: seq<Entry>)

  /** `EXERCISE_CATEGORIES`, in insertion order. */
  const Catalog: seq<Category> := [
    Category("\U{1F4AA} UPPER BODY", "#FF6B6B", [
      Entry("push-up", "Push-ups", 1, "Medium", "SIDE VIEW"),
      Entry("tricep-dip", "Tricep Dips", 8, "Medium", "SIDE VIEW")]),
    Category("\U{1F525} CORE / ABS", "#FFD700", [
      Entry("sit-up", "Sit-ups", 1, "Medium", "SIDE VIEW"),
      Entry("plank", "Plank", 1, "Hard", "SIDE VIEW"),
      Entry("leg-raise", "Leg Raises", 5, "Medium", "SIDE VIEW")]),
    Category("\U{1F9B5} LOWER BODY", "#4ECDC4", [
      Entry("squat", "Squats", 1, "Medium", "FRONT or SIDE VIEW"),
      Entry("lunge", "Lunges", 1, "Medium", "FRONT VIEW"),
      Entry("wall-sit", "Wall Sit", 10, "Hard", "SIDE VIEW")]),
    Category("\U{26A1} CARDIO / FULL BODY", "#45B7D1", [
      Entry("jumping-jack", "Jumping Jacks", 1, "Easy", "FRONT VIEW"),
      Entry("high-knees", "High Knees", 5, "Medium", "SIDE VIEW \U{2190} REQUIRED"),
      Entry("burpee", "Burpees", 12, "Very Hard", "SIDE VIEW")])
  ]

  // ---------------------------------------------------------------- availability

  /** An exercise record with its `locked` flag. */
  datatype Tagged = Tagged(entry: Entry, locked: bool)

  /** A category of the availability listing: its colour and its tagged exercises. */
  datatype Section = Section(name: string, color: string, exercises: seq<Tagged>)

  function Tags(es: seq<Entry>, userLevel: int): (ts: seq<Tagged>)
    ensures |ts| == |es|
    ensures forall j :: 0 <= j < |es| ==> ts[j].entry == es[j]
    ensures forall j :: 0 <= j < |es| ==> (ts[j].locked <==> userLevel < es[j].requiredLevel)
  {
    seq(|es|, j requires 0 <= j < |es| => Tagged(es[j], !(userLevel >= es[j].requiredLevel)))
  }

  /** What `get_available_exercises` returns: every category in order with its colour, and
      every exercise in order, locked exactly when the user's level is below its
      required level. */
  function Availability(catalog: seq<Category>, userLevel: int): (r: seq<Section>)
    ensures |r| == |catalog|
    ensures forall i :: 0 <= i < |catalog| ==>
      r[i].name == catalog[i].name && r[i].color == catalog[i].color &&
      r[i].exercises == Tags(catalog[i].exercises, userLevel)
  {
    seq(|catalog|, i requires 0 <= i < |catalog| =>
      Section(catalog[i].name, catalog[i].color, Tags(catalog[i].exercises, userLevel)))
  }

  /** `get_available_exercises(user_level)`, over a given catalog. */
  method GetAvailableExercises(catalog: seq<Category>, userLevel: int) returns (available: seq<Section>)
    ensures available == Availability(catalog, userLevel)
  {
    available := [];
    var i := 0;
    while i < |catalog|
      invariant 0 <= i <= |catalog|
      invariant available == Availability(catalog[..i], userLevel)
    {
      var categoryData := catalog[i];
      var categoryExercises: seq<Tagged> := [];
      var j := 0;
      while j < |categoryData.exercises|
        invariant 0 <= j <= |categoryData.exercises|
        invariant categoryExercises == Tags(categoryData.exercises[..j], userLevel)
      {
        var exercise := categoryData.exercises[j];
        if userLevel >= exercise.requiredLevel {
          categoryExercises := categoryExercises + [Tagged(exercise, false)];
        } else {
          categoryExercises := categoryExercises + [Tagged(exercise, true)];
        }
        j := j + 1;
      }
      assert categoryData.exercises[..j] == categoryData.exercises;
      available := available + [Section(categoryData.name, categoryData.color, categoryExercises)];
      i := i + 1;
    }
    assert catalog[..i] == catalog;
  }

  /** A higher level never locks what a lower level unlocked. */
  lemma UnlockingIsMonotone(catalog: seq<Category>, low: int, high: int, i: nat, j: nat)
    requires low <= high
    requires i < |catalog| && j < |catalog[i].exercises|
    requires !Availability(catalog, low)[i].exercises[j].locked
    ensures !Availability(catalog, high)[i].exercises[j].locked
  {
  }

  /** At level 12 every exercise of the catalog is unlocked; at level 11 the burpee is
      still locked. */
  lemma LevelTwelveUnlocksEverything()
    ensures forall i, j :: 0 <= i < |Catalog| && 0 <= j < |Catalog[i].exercises| ==>
      !Availability(Catalog, 12)[i].exercises[j].locked
    ensures Availability(Catalog, 11)[3].exercises[2] == Tagged(Entry("burpee", "Burpees", 12, "Very Hard", "SIDE VIEW"), true)
  {
  }

  // ---------------------------------------------------------------- ids

  /** The identifiers of `es`, in order. */
  function Ids(es: seq<Entry>): (r: seq<string>)
    ensures |r| == |es|
    ensures forall j :: 0 <= j < |es| ==> r[j] == es[j].id
  {
    seq(|es|, j requires 0 <= j < |es| => es[j].id)
  }

  /** The number of exercises in the catalog. */
  function Total(catalog: seq<Category>): nat {
    if catalog == [] then 0 else Total(catalog[..|catalog| - 1]) + |catalog[|catalog| - 1].exercises|
  }

  /** What `get_all_exercise_ids` returns: the identifiers category by category, each
      category's in its own order. */
  function AllIds(catalog: seq<Category>): (r: seq<string>)
    ensures |r| == Total(catalog)
  {
    if catalog == [] then [] else AllIds(catalog[..|catalog| - 1]) + Ids(catalog[|catalog| - 1].exercises)
  }

  /** An identifier is listed exactly when some category holds an exercise with it. */
  lemma {:induction false} InAllIds(catalog: seq<Category>, id: string)
    ensures id in AllIds(catalog) <==>
      exists i, j :: 0 <= i < |catalog| && 0 <= j < |catalog[i].exercises| && catalog[i].exercises[j].id == id
  {
    if catalog != [] {
      var n := |catalog| - 1;
      var front := catalog[..n];
      InAllIds(front, id);
      assert AllIds(catalog) == AllIds(front) + Ids(catalog[n].exercises);
      if id in AllIds(catalog) {
        if id in AllIds(front) {
          var i, j :| 0 <= i < |front| && 0 <= j < |front[i].exercises| && front[i].exercises[j].id == id;
          assert catalog[i] == front[i];
        } else {
          var j :| 0 <= j < |catalog[n].exercises| && Ids(catalog[n].exercises)[j] == id;
          assert catalog[n].exercises[j].id == id;
        }
      } else {
        forall i, j | 0 <= i < |catalog| && 0 <= j < |catalog[i].exercises|
          ensures catalog[i].exercises[j].id != id
        {
          if i < n {
            assert catalog[i] == front[i];
            assert front[i].exercises[j].id != id;
          } else {
            assert Ids(catalog[n].exercises)[j] == catalog[i].exercises[j].id;
          }
        }
      }
    }
  }

  /** `get_all_exercise_ids()`, over a given catalog. */
  method GetAllExerciseIds(catalog: seq<Category>) returns (allIds: seq<string>)
    ensures allIds == AllIds(catalog)
  {
    allIds := [];
    var i := 0;
    while i < |catalog|
      invariant 0 <= i <= |catalog|
      invariant allIds == AllIds(catalog[..i])
    {
      var categoryData := catalog[i];
      ghost var before := allIds;
      var j := 0;
      while j < |categoryData.exercises|
        invariant 0 <= j <= |categoryData.exercises|
        invariant allIds == before + Ids(categoryData.exercises[..j])
      {
        allIds := allIds + [categoryData.exercises[j].id];
        j := j + 1;
      }
      assert categoryData.exercises[..j] == categoryData.exercises;
      assert catalog[..i + 1][..i] == catalog[..i];
      i := i + 1;
    }
    assert catalog[..i] == catalog;
  }

  /** The catalog lists eleven exercises, each identifier once. */
  lemma CatalogIdsDistinct()
    ensures AllIds(Catalog) == ["push-up", "tricep-dip", "sit-up", "plank", "leg-raise",
      "squat", "lunge", "wall-sit", "jumping-jack", "high-knees", "burpee"]
    ensures forall a, b :: 0 <= a < b < |AllIds(Catalog)| ==> AllIds(Catalog)[a] != AllIds(Catalog)[b]
  {
    assert Catalog[..1][..0] == [];
    assert AllIds(Catalog[..1]) == ["push-up", "tricep-dip"];
    assert Catalog[..2][..1] == Catalog[..1];
    assert AllIds(Catalog[..2]) == ["push-up", "tricep-dip", "sit-up", "plank", "leg-raise"];
    assert Catalog[..3][..2] == Catalog[..2];
    assert AllIds(Catalog[..3]) == ["push-up", "tricep-dip", "sit-up", "plank", "leg-raise",
      "squat", "lunge", "wall-sit"];
    assert Catalog[..3] == Catalog[..|Catalog| - 1];
  }

  /** Every catalog identifier selects a detector in `process_frame`, and the one detector
      the catalog does not offer is arm circles. */
  lemma CatalogIdsAreDispatched()
    ensures forall id :: id in AllIds(Catalog) ==> Sessions.ExerciseOf(id).Some?
    ensures "arm-circles" !in AllIds(Catalog)
    ensures forall e: Sessions.Exercise :: e != Sessions.ArmCircles ==> Sessions.IdOf(e) in AllIds(Catalog)
  {
    CatalogIdsDistinct();
  }

  // ---------------------------------------------------------------- lookup

  /** An exercise record with the name of the category it was found in. */
  datatype Info = Info(entry: Entry, category: string)

  /** The first exercise of `es` with identifier `id`, if any. */
  function FindIn(es: seq<Entry>, id: string): (r: Option<Entry>)
    ensures r.Some? ==> r.value.id == id
    ensures r.Some? ==> exists k :: 0 <= k < |es| && es[k] == r.value && id !in Ids(es[..k])
    ensures r.None? <==> id !in Ids(es)
  {
    if es == [] then None
    else if es[0].id == id then
      assert Ids(es[..0]) == [];
      Some(es[0])
    else
      var r := FindIn(es[1..], id);
      assert Ids(es) == [es[0].id] + Ids(es[1..]);
      assert r.Some? ==> exists k :: 0 <= k < |es| && es[k] == r.value && id !in Ids(es[..k]) by {
        if r.Some? {
          var k :| 0 <= k < |es[1..]| && es[1..][k] == r.value && id !in Ids(es[1..][..k]);
          assert Ids(es[..k + 1]) == [es[0].id] + Ids(es[1..][..k]);
          assert es[k + 1] == r.value;
        }
      }
      r
  }

  /** What `get_exercise_info` returns: the first match scanning the categories in order
      and each category's exercises in order, with its category name; `None` when no
      exercise has that identifier. */
  function Lookup(catalog: seq<Category>, id: string): (r: Option<Info>)
    ensures r.Some? ==> r.value.entry.id == id
    ensures r.Some? ==> exists i :: (0 <= i < |catalog| && catalog[i].name == r.value.category
      && FindIn(catalog[i].exercises, id) == Some(r.value.entry)
      && forall k :: 0 <= k < i ==> id !in Ids(catalog[k].exercises))
  {
    if catalog == [] then None
    else match FindIn(catalog[0].exercises, id)
      case Some(e) => Some(Info(e, catalog[0].name))
      case None =>
        var r := Lookup(catalog[1..], id);
        assert r.Some? ==> exists i :: (0 <= i < |catalog| && catalog[i].name == r.value.category
          && FindIn(catalog[i].exercises, id) == Some(r.value.entry)
          && forall k :: 0 <= k < i ==> id !in Ids(catalog[k].exercises)) by {
          if r.Some? {
            var j :| 0 <= j < |catalog[1..]| && catalog[1..][j].name == r.value.category
              && FindIn(catalog[1..][j].exercises, id) == Some(r.value.entry)
              && forall k :: 0 <= k < j ==> id !in Ids(catalog[1..][k].exercises);
            assert catalog[j + 1] == catalog[1..][j];
            forall k | 0 <= k < j + 1
              ensures id !in Ids(catalog[k].exercises)
            {
              if k > 0 { assert catalog[k] == catalog[1..][k - 1]; }
            }
          }
        }
        r
  }

  /** `get_exercise_info` finds an exercise exactly when `get_all_exercise_ids` lists its
      identifier. */
  lemma {:induction false} LookupFindsListedIds(catalog: seq<Category>, id: string)
    ensures Lookup(catalog, id).Some? <==> id in AllIds(catalog)
  {
    InAllIds(catalog, id);
    if catalog != [] {
      LookupFindsListedIds(catalog[1..], id);
      InAllIds(catalog[1..], id);
      if FindIn(catalog[0].exercises, id).None? {
        if id in AllIds(catalog) {
          var i, j :| 0 <= i < |catalog| && 0 <= j < |catalog[i].exercises| && catalog[i].exercises[j].id == id;
          assert i != 0;
          assert catalog[1..][i - 1] == catalog[i];
        }
      } else {
        assert Ids(catalog[0].exercises)[0..] == Ids(catalog[0].exercises);
        var j :| 0 <= j < |catalog[0].exercises| && Ids(catalog[0].exercises)[j] == id;
        assert catalog[0].exercises[j].id == id;
      }
    }
  }

  /** `get_exercise_info(exercise_id)`, over a given catalog. */
  method GetExerciseInfo(catalog: seq<Category>, exerciseId: string) returns (info: Option<Info>)
    ensures info == Lookup(catalog, exerciseId)
  {
    var i := 0;
    while i < |catalog|
      invariant 0 <= i <= |catalog|
      invariant Lookup(catalog[i..], exerciseId) == Lookup(catalog, exerciseId)
    {
      var categoryData := catalog[i];
      var j := 0;
      while j < |categoryData.exercises|
        invariant 0 <= j <= |categoryData.exercises|
        invariant FindIn(categoryData.exercises[j..], exerciseId) == FindIn(categoryData.exercises, exerciseId)
      {
        var exercise := categoryData.exercises[j];
        if exercise.id == exerciseId {
          assert catalog[i..][0] == categoryData;
          return Some(Info(exercise, categoryData.name));
        }
        assert categoryData.exercises[j..][1..] == categoryData.exercises[j + 1..];
        j := j + 1;
      }
      assert catalog[i..][1..] == catalog[i + 1..];
      i := i + 1;
    }
    return None;
  }

  /** Looking up an identifier the catalog does not list gives `None`. */
  lemma LookupArmCircles()
    ensures Lookup(Catalog, "arm-circles") == None
  {
    assert FindIn(Catalog[0].exercises, "arm-circles") == None;
    assert FindIn(Catalog[1].exercises, "arm-circles") == None;
    assert FindIn(Catalog[2].exercises, "arm-circles") == None;
    assert FindIn(Catalog[3].exercises, "arm-circles") == None;
    assert Catalog[1..][1..] == Catalog[2..];
    assert Catalog[2..][1..] == Catalog[3..];
    assert Catalog[3..][1..] == [];
  }

  /** Looking up a listed identifier gives its record and its category. */
  lemma LookupWallSit()
    ensures Lookup(Catalog, "wall-sit") == Some(Info(Entry("wall-sit", "Wall Sit", 10, "Hard", "SIDE VIEW"), "\U{1F9B5} LOWER BODY"))
  {
    assert FindIn(Catalog[0].exercises, "wall-sit") == None;
    assert FindIn(Catalog[1].exercises, "wall-sit") == None;
    assert FindIn(Catalog[2].exercises, "wall-sit") == Some(Entry("wall-sit", "Wall Sit", 10, "Hard", "SIDE VIEW"));
    assert Catalog[1..][1..] == Catalog[2..];
  }
}
