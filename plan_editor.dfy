/** The daily-plan form's state and its editing operations as transitions on that state.
    Each transition says exactly what changes; the `DailyPlanForm` class performs them
    in place. */
module PlanEditor {
  import opened Wrappers
  import opened Lists
  import opened PlanTypes
  import opened PlanNormalize
  import opened PlanValidate

  /** A recipe option from the reference list (`{_id, title?}`). */
  datatype RecipeRef = RecipeRef(id: string, title: Option<string>)

  /** The meal item the recipe picker adds to (`recipeModal`). */
  datatype PickerTarget = PickerTarget(section: Section, index: nat)

  /** The component's state that the editing operations read and write. */
  datatype FormState = FormState(day: int, quote: string, meals: Meals, workouts: seq<Workout>,
                                 errors: map<ErrorKey, string>, recipeModal: Option<PickerTarget>,
                                 isAdding: bool)

  /** The document `{day, meals, workouts, quote}` the state holds. */
  function PlanOf(st: FormState): Plan {
    Plan(st.day, st.quote, st.meals, st.workouts)
  }

  /** The state on mount: the route's day or 1, an empty quote, seven empty categories,
      no workouts, no errors, no picker, no add in progress. */
  function Initial(dayParam: Option<int>): (st: FormState)
    ensures st.day == dayParam.GetOr(1)
    ensures st.quote == [] && st.workouts == [] && st.errors == map[]
    ensures st.recipeModal.None? && !st.isAdding
    ensures forall s :: s in st.meals
    ensures forall s :: s in st.meals ==> st.meals[s] == []
  {
    InitialMealsComplete();
    FormState(dayParam.GetOr(1), "", InitialMeals, [], map[], None, false)
  }

  // ---------------------------------------------------------------- meals

  /** `updateMealItem(section, index, field, value)`. */
  function UpdateMealItem(st: FormState, s: Section, i: nat, e: MealEdit): (r: FormState)
    requires s in st.meals && i <= |st.meals[s]|
    ensures r == st.(meals := r.meals)
    ensures r.meals.Keys == st.meals.Keys
    ensures forall t :: t in st.meals && t != s ==> r.meals[t] == st.meals[t]
    ensures |r.meals[s]| == if i < |st.meals[s]| then |st.meals[s]| else i + 1
    ensures MealEditHolds(r.meals[s][i], e)
    ensures var before := if i < |st.meals[s]| then st.meals[s][i] else EmptySlot;
      forall f :: f != MealEditField(e) ==> SameMealField(r.meals[s][i], before, f)
    ensures forall k :: 0 <= k < |st.meals[s]| && k != i ==> r.meals[s][k] == st.meals[s][k]
  {
    st.(meals := st.meals[s := UpdateSlot(st.meals[s], i, e)])
  }

  /** The transition replaces one category by its updated list. */
  lemma UpdateMealItemMeals(st: FormState, s: Section, i: nat, e: MealEdit)
    requires s in st.meals && i <= |st.meals[s]|
    ensures UpdateMealItem(st, s, i, e) == st.(meals := st.meals[s := UpdateSlot(st.meals[s], i, e)])
  {
  }

  /** `addMealItem(section)`: ignored while an add is in progress; otherwise one blank
      item goes at the end of that category and the add flag is raised. */
  function AddMealItem(st: FormState, s: Section): (r: FormState)
    requires st.isAdding || s in st.meals
    ensures st.isAdding ==> r == st
    ensures !st.isAdding ==> r == st.(meals := r.meals, isAdding := true)
    ensures !st.isAdding ==> r.meals.Keys == st.meals.Keys && r.meals[s] == st.meals[s] + [BlankMealItem]
    ensures !st.isAdding ==> forall t :: t in st.meals && t != s ==> r.meals[t] == st.meals[t]
  {
    if st.isAdding then st
    else st.(meals := st.meals[s := st.meals[s] + [BlankMealItem]], isAdding := true)
  }

  /** `removeMealItem(section, index)`: `splice(index, 1)` on that category. */
  function RemoveMealItem(st: FormState, s: Section, i: nat): (r: FormState)
    requires s in st.meals
    ensures r == st.(meals := r.meals)
    ensures r.meals.Keys == st.meals.Keys
    ensures forall t :: t in st.meals && t != s ==> r.meals[t] == st.meals[t]
    ensures r.meals[s] == RemoveAt(st.meals[s], i)
  {
    st.(meals := st.meals[s := RemoveAt(st.meals[s], i)])
  }

  /** The picker's target names an existing item. */
  predicate TargetExists(st: FormState) {
    st.recipeModal.Some? ==>
      st.recipeModal.value.section in st.meals
      && st.recipeModal.value.index < |st.meals[st.recipeModal.value.section]|
  }

  /** `addRecipeToMeal(recipe)`: with no picker open nothing happens; otherwise the
      recipe's id is appended to the target item's recipes, even when already present,
      and the picker closes. A target that no longer exists (a plan loaded after the
      picker opened replaced the meals) makes `meals[section][index].recipes` throw, so
      the handler stops before anything changes and the picker stays open. */
  function AddRecipeToMeal(st: FormState, recipe: RecipeRef): (r: FormState)
    ensures st.recipeModal.None? || !TargetExists(st) ==> r == st
    ensures st.recipeModal.Some? && TargetExists(st) ==>
      var s, i := st.recipeModal.value.section, st.recipeModal.value.index;
      && r == st.(meals := r.meals, recipeModal := None)
      && r.meals.Keys == st.meals.Keys
      && (forall t :: t in st.meals && t != s ==> r.meals[t] == st.meals[t])
      && |r.meals[s]| == |st.meals[s]|
      && (forall k :: 0 <= k < |st.meals[s]| && k != i ==> r.meals[s][k] == st.meals[s][k])
      && r.meals[s][i] == st.meals[s][i].(recipes := st.meals[s][i].recipes + [recipe.id])
  {
    match st.recipeModal
    case None => st
    case Some(PickerTarget(s, i)) =>
      if s in st.meals && i < |st.meals[s]| then
        UpdateMealItem(st, s, i, SetRecipes(st.meals[s][i].recipes + [recipe.id])).(recipeModal := None)
      else
        st
  }

  /** The `×` on a recipe chip: `recipes.filter(x => x !== rid)`, which removes every
      copy of the id and keeps the other entries in order. */
  function RemoveRecipeChip(st: FormState, s: Section, i: nat, id: string): (r: FormState)
    requires s in st.meals && i < |st.meals[s]|
    ensures r == st.(meals := r.meals)
    ensures r.meals.Keys == st.meals.Keys
    ensures forall t :: t in st.meals && t != s ==> r.meals[t] == st.meals[t]
    ensures |r.meals[s]| == |st.meals[s]|
    ensures forall k :: 0 <= k < |st.meals[s]| && k != i ==> r.meals[s][k] == st.meals[s][k]
    ensures r.meals[s][i] == st.meals[s][i].(recipes := RemoveAll(st.meals[s][i].recipes, id))
  {
    UpdateMealItem(st, s, i, SetRecipes(RemoveAll(st.meals[s][i].recipes, id)))
  }

  // ---------------------------------------------------------------- workouts

  /** `updateWorkoutField(index, field, value)`: the workout must exist; no slot is
      materialised. */
  function UpdateWorkoutField(st: FormState, w: nat, e: WorkoutEdit): (r: FormState)
    requires w < |st.workouts|
    ensures r == st.(workouts := r.workouts)
    ensures |r.workouts| == |st.workouts|
    ensures forall k :: 0 <= k < |st.workouts| && k != w ==> r.workouts[k] == st.workouts[k]
    ensures WorkoutEditHolds(r.workouts[w], e)
    ensures forall f :: f != WorkoutEditField(e) ==> SameWorkoutField(r.workouts[w], st.workouts[w], f)
  {
    st.(workouts := st.workouts[w := ApplyWorkoutEdit(st.workouts[w], e)])
  }

  /** `addWorkout()`: debounced; appends one blank workout. */
  function AddWorkout(st: FormState): (r: FormState)
    ensures st.isAdding ==> r == st
    ensures !st.isAdding ==> r == st.(workouts := st.workouts + [BlankWorkout], isAdding := true)
  {
    if st.isAdding then st else st.(workouts := st.workouts + [BlankWorkout], isAdding := true)
  }

  /** `removeWorkout(index)`: `splice(index, 1)` on the workouts. */
  function RemoveWorkout(st: FormState, w: nat): (r: FormState)
    ensures r == st.(workouts := RemoveAt(st.workouts, w))
  {
    st.(workouts := RemoveAt(st.workouts, w))
  }

  /** `addSubVideo(wIndex)`: debounced; appends one blank sub-video to that workout. */
  function AddSubVideo(st: FormState, w: nat): (r: FormState)
    requires st.isAdding || w < |st.workouts|
    ensures st.isAdding ==> r == st
    ensures !st.isAdding ==> r == st.(workouts := r.workouts, isAdding := true)
    ensures !st.isAdding ==> |r.workouts| == |st.workouts|
    ensures !st.isAdding ==> forall k :: 0 <= k < |st.workouts| && k != w ==> r.workouts[k] == st.workouts[k]
    ensures !st.isAdding ==> r.workouts[w] == st.workouts[w].(subVideos := st.workouts[w].subVideos + [BlankSubVideo])
  {
    if st.isAdding then st
    else
      var wk := st.workouts[w];
      st.(workouts := st.workouts[w := wk.(subVideos := wk.subVideos + [BlankSubVideo])], isAdding := true)
  }

  /** `removeSubVideo(wIndex, sIndex)`: `splice(sIndex, 1)` on that workout's sub-videos. */
  function RemoveSubVideo(st: FormState, w: nat, v: nat): (r: FormState)
    requires w < |st.workouts|
    ensures r == st.(workouts := r.workouts)
    ensures |r.workouts| == |st.workouts|
    ensures forall k :: 0 <= k < |st.workouts| && k != w ==> r.workouts[k] == st.workouts[k]
    ensures r.workouts[w] == st.workouts[w].(subVideos := RemoveAt(st.workouts[w].subVideos, v))
  {
    var wk := st.workouts[w];
    st.(workouts := st.workouts[w := wk.(subVideos := RemoveAt(wk.subVideos, v))])
  }

  /** `updateSubVideoField(wIndex, sIndex, field, value)`: both indices must exist. */
  function UpdateSubVideoField(st: FormState, w: nat, v: nat, e: SubVideoEdit): (r: FormState)
    requires w < |st.workouts| && v < |st.workouts[w].subVideos|
    ensures r == st.(workouts := r.workouts)
    ensures |r.workouts| == |st.workouts|
    ensures forall k :: 0 <= k < |st.workouts| && k != w ==> r.workouts[k] == st.workouts[k]
    ensures |r.workouts[w].subVideos| == |st.workouts[w].subVideos|
    ensures forall f :: f != SubVideosOf ==> SameWorkoutField(r.workouts[w], st.workouts[w], f)
    ensures forall k :: 0 <= k < |st.workouts[w].subVideos| && k != v ==>
              r.workouts[w].subVideos[k] == st.workouts[w].subVideos[k]
    ensures SubVideoEditHolds(r.workouts[w].subVideos[v], e)
    ensures forall f :: f != SubVideoEditField(e) ==>
              SameSubVideoField(r.workouts[w].subVideos[v], st.workouts[w].subVideos[v], f)
  {
    var wk := st.workouts[w];
    st.(workouts := st.workouts[w := wk.(subVideos := wk.subVideos[v := ApplySubVideoEdit(wk.subVideos[v], e)])])
  }

  /** The 50 ms timer firing: the add flag drops and nothing else changes. */
  function Tick(st: FormState): (r: FormState)
    ensures !r.isAdding && r.(isAdding := st.isAdding) == st
  {
    st.(isAdding := false)
  }

  // ---------------------------------------------------------------- hydration

  /** `fetchPlan` once `data.data` is present: the quote is set first (`quote || ""`);
      the meals are set only when they normalise; the workouts only after the meals
      succeeded and when they normalise. A payload that throws part-way leaves the later
      fields as they were. */
  function Hydrate(st: FormState, raw: RawPlan): (r: FormState)
    ensures r == st.(quote := r.quote, meals := r.meals, workouts := r.workouts)
    ensures r.quote == raw.quote.GetOr("")
    ensures r.meals == NormalizeMeals(raw.meals).GetOr(st.meals)
    ensures NormalizeMeals(raw.meals).Some? ==> r.workouts == NormalizeWorkouts(raw.workouts).GetOr(st.workouts)
    ensures NormalizeMeals(raw.meals).None? ==> r.workouts == st.workouts
  {
    var q := st.(quote := raw.quote.GetOr(""));
    match NormalizeMeals(raw.meals)
    case None => q
    case Some(m) =>
      match NormalizeWorkouts(raw.workouts)
      case None => q.(meals := m)
      case Some(ws) => q.(meals := m, workouts := ws)
  }

  /** The payload the server sends for a stored plan. */
  function EmbedPlan(p: Plan): RawPlan {
    RawPlan(Some(p.quote), Some(EmbedMeals(p.meals)), Some(EmbedWorkouts(p.workouts)))
  }

  // ---------------------------------------------------------------- the recipe picker

  /** `recipes.find(r => r._id === id)`: the first option with that id. */
  function FindRecipe(options: seq<RecipeRef>, id: string): (r: Option<RecipeRef>)
    ensures r.None? <==> forall i :: 0 <= i < |options| ==> options[i].id != id
    ensures r.Some? ==> exists i :: 0 <= i < |options| && options[i] == r.value
                                    && r.value.id == id && forall j :: 0 <= j < i ==> options[j].id != id
  {
    if options == [] then None
    else if options[0].id == id then Some(options[0])
    else
      var rest := FindRecipe(options[1..], id);
      if rest.Some? then
        ghost var i :| 0 <= i < |options[1..]| && options[1..][i] == rest.value && rest.value.id == id
                       && forall j :: 0 <= j < i ==> options[1..][j].id != id;
        assert options[i + 1] == rest.value;
        rest
      else rest
  }

  /** `handleAdd`: nothing without a selection; otherwise the selected option, when the
      list holds it. */
  function PickerChoice(options: seq<RecipeRef>, selected: string): (r: Option<RecipeRef>)
    ensures selected == [] ==> r.None?
    ensures selected != [] ==> r == FindRecipe(options, selected)
  {
    if selected == [] then None else FindRecipe(options, selected)
  }

  // ---------------------------------------------------------------- properties

  /** The three add operations share one flag: after any accepted add, every further add
      is ignored until the timer fires, and after it the next add is accepted. */
  lemma {:induction false} SharedDebounce(st: FormState, s: Section, t: Section, w: nat)
    requires !st.isAdding && s in st.meals
    ensures var a := AddMealItem(st, s);
      && AddMealItem(a, t) == a && AddWorkout(a) == a && AddSubVideo(a, w) == a
      && AddMealItem(Tick(a), s).meals[s] == st.meals[s] + [BlankMealItem, BlankMealItem]
  {
    var a := AddMealItem(st, s);
    assert a.meals[s] + [BlankMealItem] == st.meals[s] + [BlankMealItem, BlankMealItem];
  }

  /** Removing the item just added gives back the previous meals. */
  lemma AddThenRemoveMealItem(st: FormState, s: Section)
    requires !st.isAdding && s in st.meals
    ensures RemoveMealItem(AddMealItem(st, s), s, |st.meals[s]|) == st.(isAdding := true)
  {
    var a := AddMealItem(st, s);
    var r := RemoveMealItem(a, s, |st.meals[s]|);
    RemoveLast(st.meals[s], BlankMealItem);
    assert r.meals == st.meals;
  }

  /** Removing the workout just added gives back the previous workouts. */
  lemma AddThenRemoveWorkout(st: FormState)
    requires !st.isAdding
    ensures RemoveWorkout(AddWorkout(st), |st.workouts|) == st.(isAdding := true)
  {
    RemoveLast(st.workouts, BlankWorkout);
  }

  /** Removing the sub-video just added gives back the previous workouts. */
  lemma AddThenRemoveSubVideo(st: FormState, w: nat)
    requires !st.isAdding && w < |st.workouts|
    ensures RemoveSubVideo(AddSubVideo(st, w), w, |st.workouts[w].subVideos|) == st.(isAdding := true)
  {
    var r := RemoveSubVideo(AddSubVideo(st, w), w, |st.workouts[w].subVideos|);
    RemoveLast(st.workouts[w].subVideos, BlankSubVideo);
    assert r.workouts[w] == st.workouts[w];
    assert r.workouts == st.workouts;
  }

  /** Removing at an index past the end, however often, changes nothing. */
  lemma RemoveOutOfRange(st: FormState, s: Section, i: nat)
    requires s in st.meals && i >= |st.meals[s]|
    ensures RemoveMealItem(st, s, i) == st
    ensures RemoveMealItem(RemoveMealItem(st, s, i), s, i) == st
  {
    assert RemoveMealItem(st, s, i).meals == st.meals;
  }

  /** Recipe references are a list with repeats on the way in and a set filter on the
      way out: picking `id` then removing its chip leaves the item's recipes with every
      copy of `id` gone, which is the original list exactly when `id` was not in it. */
  lemma PickThenRemoveChip(st: FormState, recipe: RecipeRef)
    requires TargetExists(st) && st.recipeModal.Some?
    ensures var s, i := st.recipeModal.value.section, st.recipeModal.value.index;
      var before := st.meals[s][i].recipes;
      var r := RemoveRecipeChip(AddRecipeToMeal(st, recipe), s, i, recipe.id).meals[s][i].recipes;
      && r == RemoveAll(before, recipe.id)
      && (r == before <==> recipe.id !in before)
  {
    var s, i := st.recipeModal.value.section, st.recipeModal.value.index;
    var before := st.meals[s][i].recipes;
    RemoveAllConcat(before, [recipe.id], recipe.id);
    RemoveAllSpec(before, recipe.id);
    assert RemoveAll([recipe.id], recipe.id) == [];
    if recipe.id !in before {
      RemoveAllAbsent(before, recipe.id);
    }
  }

  /** A freshly added meal item is the only new validation failure: its title is blank,
      and every other rule fails exactly as before. */
  lemma NewMealItemNeedsTitle(st: FormState, s: Section)
    requires !st.isAdding && s in st.meals
    ensures var n := |st.meals[s]|;
      && Fails(PlanOf(AddMealItem(st, s)), MealTitleKey(s, n))
      && forall k :: k != MealTitleKey(s, n) ==> (Fails(PlanOf(AddMealItem(st, s)), k) <==> Fails(PlanOf(st), k))
  {
    var n := |st.meals[s]|;
    var p, q := PlanOf(st), PlanOf(AddMealItem(st, s));
    assert q.meals[s][n] == BlankMealItem;

    forall k | k != MealTitleKey(s, n) ensures Fails(q, k) <==> Fails(p, k) {
      match k
      case MealTitleKey(s', i) =>
        if s' == s && i < n { assert q.meals[s][i] == p.meals[s][i]; }
      case MealRecipeKey(s', i, j) =>
        if s' == s && i < n { assert q.meals[s][i] == p.meals[s][i]; }
      case _ =>
    }
  }

  /** A freshly added workout is the only new validation failure: its title is blank. */
  lemma NewWorkoutNeedsTitle(st: FormState)
    requires !st.isAdding
    ensures var n := |st.workouts|;
      && Fails(PlanOf(AddWorkout(st)), WorkoutTitleKey(n))
      && forall k :: k != WorkoutTitleKey(n) ==> (Fails(PlanOf(AddWorkout(st)), k) <==> Fails(PlanOf(st), k))
  {
    var n := |st.workouts|;
    var p, q := PlanOf(st), PlanOf(AddWorkout(st));

    forall k | k != WorkoutTitleKey(n) ensures Fails(q, k) <==> Fails(p, k) {
      match k
      case WorkoutTitleKey(w) =>
        if w < n { assert q.workouts[w] == p.workouts[w]; }
      case SubVideoTitleKey(w, v) =>
        if w < n { assert q.workouts[w] == p.workouts[w]; }
      case SubVideoYogaKey(w, v) =>
        if w < n { assert q.workouts[w] == p.workouts[w]; }
      case _ =>
    }
  }

  /** A freshly added sub-video brings exactly two new failures: its title and its yoga
      selection. */
  lemma NewSubVideoNeedsTitleAndYoga(st: FormState, w: nat)
    requires !st.isAdding && w < |st.workouts|
    ensures var n := |st.workouts[w].subVideos|; var q := PlanOf(AddSubVideo(st, w));
      && Fails(q, SubVideoTitleKey(w, n)) && Fails(q, SubVideoYogaKey(w, n))
      && forall k :: k != SubVideoTitleKey(w, n) && k != SubVideoYogaKey(w, n) ==> (Fails(q, k) <==> Fails(PlanOf(st), k))
  {
    var n := |st.workouts[w].subVideos|;
    var p, q := PlanOf(st), PlanOf(AddSubVideo(st, w));
    assert q.workouts[w].subVideos[n] == BlankSubVideo;

    forall k | k != SubVideoTitleKey(w, n) && k != SubVideoYogaKey(w, n) ensures Fails(q, k) <==> Fails(p, k) {
      match k
      case SubVideoTitleKey(w', v) =>
        if w' == w && v < n { assert q.workouts[w].subVideos[v] == p.workouts[w].subVideos[v]; }
      case SubVideoYogaKey(w', v) =>
        if w' == w && v < n { assert q.workouts[w].subVideos[v] == p.workouts[w].subVideos[v]; }
      case _ =>
    }
  }

  /** A fresh form fails on its quote, on its day exactly when the day is below 1, and on
      nothing else. */
  lemma FreshFormFailures(dayParam: Option<int>, k: ErrorKey)
    ensures Fails(PlanOf(Initial(dayParam)), k) <==> k == QuoteKey || (k == DayKey && dayParam.GetOr(1) < 1)
  {

  }

  /** Hydrating from the payload of a stored plan reproduces that plan's quote, meals and
      workouts. */
  lemma HydrateStoredPlan(st: FormState, p: Plan)
    requires AlternatesPresent(p.meals)
    ensures PlanOf(Hydrate(st, EmbedPlan(p))) == p.(day := st.day)
  {
    NormalizeEmbeddedMeals(p.meals);
    NormalizeEmbeddedWorkouts(p.workouts);
  }

  /** An embedded follow-along video (`{_id: x, ...}`) arrives in the form as the id `x`. */
  lemma HydrateEmbeddedVideo(st: FormState, raw: RawPlan, i: nat, x: string)
    requires NormalizeMeals(raw.meals).Some?
    requires raw.workouts.Some? && i < |raw.workouts.value|
    requires forall j :: 0 <= j < |raw.workouts.value| ==> raw.workouts.value[j].subVideos.Some?
    requires raw.workouts.value[i].followAlongFullVideo == Obj(x)
    ensures i < |Hydrate(st, raw).workouts| && Hydrate(st, raw).workouts[i].followAlongFullVideo == x
  {
    var r := NormalizeWorkoutList(raw.workouts.value);
    assert Some(r.value[i]) == NormalizeWorkout(raw.workouts.value[i]);
  }
}
