/** Edit-mode hydration: the server's plan may embed whole recipe or yoga objects where
    the canonical document holds `_id` strings; the normaliser reduces every reference to
    its id. JavaScript throws where the code dereferences a missing value, and such a
    payload normalises to None. */
module PlanNormalize {
  import opened Wrappers
  import opened PlanTypes

  /** A reference as the server sends it: an id string, an embedded object (whose
      `_id` is `objId`), or `undefined`/`null`. */
  datatype RefOrId = Id(id: string) | Obj(objId: string) | Absent

  datatype RawMealItem = RawMealItem(title: string, recipes: Option<seq<RefOrId>>,
                                     alternateRecipes: Option<seq<RefOrId>>, notes: Option<string>)

  datatype RawSubVideo = RawSubVideo(title: string, workoutId: RefOrId, duration: Option<string>, notes: Option<string>)

  datatype RawWorkout = RawWorkout(title: string, followAlongFullVideo: RefOrId,
                                   subVideos: Option<seq<RawSubVideo>>, notes: Option<string>, id: Option<string>)

  /** `data.data` of the plan fetch; `day` is not read from it. */
  datatype RawPlan = RawPlan(quote: Option<string>, meals: Option<map<Section, seq<RawMealItem>>>,
                             workouts: Option<seq<RawWorkout>>)

  /** The id a present list entry stands for: `typeof r === "string" ? r : r._id`. */
  function RefId(r: RefOrId): string
    requires !r.Absent?
  {
    match r
    case Id(s) => s
    case Obj(o) => o
  }

  /** A single reference field: the object's `_id` when it is a non-null object, otherwise
      the string, and `""` when missing. */
  function ScalarRefId(r: RefOrId): (s: string)
    ensures r.Obj? ==> s == r.objId
    ensures r.Id? ==> s == r.id
    ensures r.Absent? ==> s == ""
  {
    match r
    case Obj(o) => o
    case Id(s) => s
    case Absent => ""
  }

  /** `rs.map(r => typeof r === "string" ? r : r._id)`. A `null` or `undefined` entry makes
      `r._id` throw, so the list normalises only when every entry is present; then each
      entry becomes its id, in order. */
  function NormalizeRefs(rs: seq<RefOrId>): (r: Option<seq<string>>)
    ensures r.Some? <==> forall i :: 0 <= i < |rs| ==> !rs[i].Absent?
    ensures r.Some? ==> |r.value| == |rs| && forall i :: 0 <= i < |rs| ==> r.value[i] == RefId(rs[i])
  {
    if rs == [] then Some([])
    else if rs[0].Absent? then None
    else
      match NormalizeRefs(rs[1..])
      case None => None
      case Some(tail) => Some([RefId(rs[0])] + tail)
  }

  /** One meal item: `{...item, recipes: ..., alternateRecipes: ... || []}`. A missing
      `recipes` list throws; missing `alternateRecipes` become `[]`; title and notes
      are kept. */
  function NormalizeItem(it: RawMealItem): (r: Option<MealItem>)
    ensures r.Some? <==> (it.recipes.Some? && NormalizeRefs(it.recipes.value).Some?
                          && (it.alternateRecipes.Some? ==> NormalizeRefs(it.alternateRecipes.value).Some?))
    ensures r.Some? ==> r.value.title == it.title && r.value.notes == it.notes
    ensures r.Some? ==> r.value.recipes == NormalizeRefs(it.recipes.value).value
    ensures r.Some? && it.alternateRecipes.None? ==> r.value.alternateRecipes == Some([])
    ensures r.Some? && it.alternateRecipes.Some? ==> r.value.alternateRecipes == NormalizeRefs(it.alternateRecipes.value)
  {
    if it.recipes.None? then None
    else
      var recipes := NormalizeRefs(it.recipes.value);
      var alternates := if it.alternateRecipes.None? then Some([]) else NormalizeRefs(it.alternateRecipes.value);
      if recipes.None? || alternates.None? then None
      else Some(MealItem(it.title, recipes.value, alternates, it.notes))
  }

  /** `items.map(normaliseItem)`: length and order preserved, None if any item throws. */
  function NormalizeItems(items: seq<RawMealItem>): (r: Option<seq<MealItem>>)
    ensures r.Some? <==> forall i :: 0 <= i < |items| ==> NormalizeItem(items[i]).Some?
    ensures r.Some? ==> |r.value| == |items| && forall i :: 0 <= i < |items| ==> Some(r.value[i]) == NormalizeItem(items[i])
  {
    if items == [] then Some([])
    else
      match (NormalizeItem(items[0]), NormalizeItems(items[1..]))
      case (Some(first), Some(rest)) => Some([first] + rest)
      case _ => None
  }

  /** `Object.keys(meals).forEach(...)`: exactly the categories the server sent, each
      list normalised. `Object.keys` of a missing `meals` throws. */
  function NormalizeMeals(meals: Option<map<Section, seq<RawMealItem>>>): (r: Option<Meals>)
    ensures r.Some? <==> meals.Some? && forall s :: s in meals.value ==> NormalizeItems(meals.value[s]).Some?
    ensures r.Some? ==> r.value.Keys == meals.value.Keys
    ensures r.Some? ==> forall s :: s in r.value ==> Some(r.value[s]) == NormalizeItems(meals.value[s])
  {
    if meals.None? then None
    else
      var m := meals.value;
      if forall s :: s in m ==> NormalizeItems(m[s]).Some? then
        Some(map s | s in m :: NormalizeItems(m[s]).value)
      else None
  }

  /** A sub-video: `workoutId` reduced like a single reference, other fields kept. */
  function NormalizeSubVideo(sv: RawSubVideo): (r: SubVideo)
    ensures r.workoutId == ScalarRefId(sv.workoutId)
    ensures r.title == sv.title && r.duration == sv.duration && r.notes == sv.notes
  {
    SubVideo(sv.title, ScalarRefId(sv.workoutId), sv.duration, sv.notes)
  }

  function NormalizeSubVideos(svs: seq<RawSubVideo>): (r: seq<SubVideo>)
    ensures |r| == |svs| && forall i :: 0 <= i < |svs| ==> r[i] == NormalizeSubVideo(svs[i])
  {
    if svs == [] then [] else [NormalizeSubVideo(svs[0])] + NormalizeSubVideos(svs[1..])
  }

  /** A workout: `followAlongFullVideo` reduced like a single reference and every
      sub-video normalised, in order. `w.subVideos.map` throws when the list is missing. */
  function NormalizeWorkout(w: RawWorkout): (r: Option<Workout>)
    ensures r.Some? <==> w.subVideos.Some?
    ensures r.Some? ==> r.value.followAlongFullVideo == ScalarRefId(w.followAlongFullVideo)
    ensures r.Some? ==> r.value.subVideos == NormalizeSubVideos(w.subVideos.value)
    ensures r.Some? ==> r.value.title == w.title && r.value.notes == w.notes && r.value.id == w.id
  {
    if w.subVideos.None? then None
    else Some(Workout(w.title, ScalarRefId(w.followAlongFullVideo), NormalizeSubVideos(w.subVideos.value), w.notes, w.id))
  }

  function NormalizeWorkoutList(ws: seq<RawWorkout>): (r: Option<seq<Workout>>)
    ensures r.Some? <==> forall i :: 0 <= i < |ws| ==> ws[i].subVideos.Some?
    ensures r.Some? ==> |r.value| == |ws| && forall i :: 0 <= i < |ws| ==> Some(r.value[i]) == NormalizeWorkout(ws[i])
  {
    if ws == [] then Some([])
    else
      match (NormalizeWorkout(ws[0]), NormalizeWorkoutList(ws[1..]))
      case (Some(first), Some(rest)) => Some([first] + rest)
      case _ => None
  }

  /** `(data.data.workouts || []).map(...)`: a missing list is `[]`. */
  function NormalizeWorkouts(ws: Option<seq<RawWorkout>>): (r: Option<seq<Workout>>)
    ensures ws.None? ==> r == Some([])
    ensures ws.Some? ==> r == NormalizeWorkoutList(ws.value)
  {
    if ws.None? then Some([]) else NormalizeWorkoutList(ws.value)
  }

  // ---------------------------------------------------------------- canonical documents as payloads

  /** A canonical document sent back as a payload: every reference an id string. */
  function EmbedIds(ids: seq<string>): (rs: seq<RefOrId>)
    ensures |rs| == |ids| && forall i :: 0 <= i < |ids| ==> rs[i] == Id(ids[i])
  {
    if ids == [] then [] else [Id(ids[0])] + EmbedIds(ids[1..])
  }

  function EmbedItem(it: MealItem): RawMealItem {
    RawMealItem(it.title, Some(EmbedIds(it.recipes)),
                if it.alternateRecipes.Some? then Some(EmbedIds(it.alternateRecipes.value)) else None, it.notes)
  }

  function EmbedItems(items: seq<MealItem>): (rs: seq<RawMealItem>)
    ensures |rs| == |items| && forall i :: 0 <= i < |items| ==> rs[i] == EmbedItem(items[i])
  {
    if items == [] then [] else [EmbedItem(items[0])] + EmbedItems(items[1..])
  }

  function EmbedMeals(m: Meals): map<Section, seq<RawMealItem>> {
    map s | s in m :: EmbedItems(m[s])
  }

  function EmbedSubVideo(sv: SubVideo): RawSubVideo {
    RawSubVideo(sv.title, Id(sv.workoutId), sv.duration, sv.notes)
  }

  function EmbedSubVideos(svs: seq<SubVideo>): (rs: seq<RawSubVideo>)
    ensures |rs| == |svs| && forall i :: 0 <= i < |svs| ==> rs[i] == EmbedSubVideo(svs[i])
  {
    if svs == [] then [] else [EmbedSubVideo(svs[0])] + EmbedSubVideos(svs[1..])
  }

  function EmbedWorkout(w: Workout): RawWorkout {
    RawWorkout(w.title, Id(w.followAlongFullVideo), Some(EmbedSubVideos(w.subVideos)), w.notes, w.id)
  }

  function EmbedWorkouts(ws: seq<Workout>): (rs: seq<RawWorkout>)
    ensures |rs| == |ws| && forall i :: 0 <= i < |ws| ==> rs[i] == EmbedWorkout(ws[i])
  {
    if ws == [] then [] else [EmbedWorkout(ws[0])] + EmbedWorkouts(ws[1..])
  }

  /** Items as the normaliser produces them: `alternateRecipes` is always present. */
  predicate AlternatesPresent(m: Meals) {
    forall s: Section, i: int :: s in m && 0 <= i < |m[s]| ==> m[s][i].alternateRecipes.Some?
  }

  /** Strings pass through the list normaliser unchanged. */
  lemma NormalizeEmbeddedIds(ids: seq<string>)
    ensures NormalizeRefs(EmbedIds(ids)) == Some(ids)
  {
    var r := NormalizeRefs(EmbedIds(ids));
    assert r.value == ids;
  }

  /** A canonical meal item normalises to itself when it carries `alternateRecipes`. */
  lemma NormalizeEmbeddedItem(it: MealItem)
    requires it.alternateRecipes.Some?
    ensures NormalizeItem(EmbedItem(it)) == Some(it)
  {
    NormalizeEmbeddedIds(it.recipes);
    NormalizeEmbeddedIds(it.alternateRecipes.value);
  }

  /** A canonical meals object normalises to itself when its items carry `alternateRecipes`
      (the only field the normaliser fills in). */
  lemma NormalizeEmbeddedMeals(m: Meals)
    requires AlternatesPresent(m)
    ensures NormalizeMeals(Some(EmbedMeals(m))) == Some(m)
  {
    var raw := EmbedMeals(m);
    forall s | s in raw ensures NormalizeItems(raw[s]) == Some(m[s]) {
      forall i | 0 <= i < |m[s]| ensures NormalizeItem(raw[s][i]) == Some(m[s][i]) {
        NormalizeEmbeddedItem(m[s][i]);
      }
      var r := NormalizeItems(raw[s]);
      assert r.value == m[s];
    }
    var r := NormalizeMeals(Some(raw));
    assert r.value == m;
  }

  /** A canonical workout list normalises to itself. */
  lemma NormalizeEmbeddedWorkouts(ws: seq<Workout>)
    ensures NormalizeWorkouts(Some(EmbedWorkouts(ws))) == Some(ws)
  {
    var raw := EmbedWorkouts(ws);
    forall i | 0 <= i < |ws| ensures NormalizeWorkout(raw[i]) == Some(ws[i]) {
      var svs := NormalizeSubVideos(EmbedSubVideos(ws[i].subVideos));
      assert svs == ws[i].subVideos;
    }
    var r := NormalizeWorkouts(Some(raw));
    assert r.value == ws;
  }

  /** Normalising is idempotent: a normalised meals object sent back normalises to itself. */
  lemma NormalizeMealsIdempotent(meals: Option<map<Section, seq<RawMealItem>>>)
    requires NormalizeMeals(meals).Some?
    ensures NormalizeMeals(Some(EmbedMeals(NormalizeMeals(meals).value))) == NormalizeMeals(meals)
  {
    var m: Meals := NormalizeMeals(meals).value;
    forall s: Section, i: int | s in m && 0 <= i < |m[s]| ensures m[s][i].alternateRecipes.Some? {
      assert Some(m[s][i]) == NormalizeItem(meals.value[s][i]);
    }
    NormalizeEmbeddedMeals(m);
  }
}
