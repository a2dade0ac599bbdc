/** The daily-plan form as an object whose fields the handlers update in place, and the
    recipe picker it opens. Each method is proved to perform the transition of the same
    name in `PlanEditor`. */
module PlanForm {
  import opened Wrappers
  import opened Lists
  import opened PlanTypes
  import opened PlanNormalize
  import opened PlanValidate
  import opened PlanSubmit
  import opened Text
  import E = PlanEditor

  class DailyPlanForm {
    const mode: Mode
    var day: int
    var quote: string
    var meals: Meals
    var workouts: seq<Workout>
    var errors: map<ErrorKey, string>
    var recipeModal: Option<E.PickerTarget>
    var isAdding: bool

    function State(): E.FormState
      reads this
    {
      E.FormState(day, quote, meals, workouts, errors, recipeModal, isAdding)
    }

    /** The document the form holds. */
    function Document(): Plan
      reads this
    {
      E.PlanOf(State())
    }

    /** Mounting the form: `useState` initial values. */
    constructor (mode: Mode, dayParam: Option<int>)
      ensures this.mode == mode && State() == E.Initial(dayParam)
    {
      this.mode := mode;
      day := dayParam.GetOr(1);
      quote := "";
      meals := InitialMeals;
      workouts := [];
      errors := map[];
      recipeModal := None;
      isAdding := false;
    }

    method SetDay(d: int)
      modifies this
      ensures State() == old(State()).(day := d)
    {
      day := d;
    }

    method SetQuote(q: string)
      modifies this
      ensures State() == old(State()).(quote := q)
    {
      quote := q;
    }

    method UpdateMealItem(s: Section, i: nat, e: MealEdit)
      requires s in meals && i <= |meals[s]|
      modifies this
      ensures meals == old(meals)[s := UpdateSlot(old(meals)[s], i, e)]
      ensures State() == E.UpdateMealItem(old(State()), s, i, e)
    {
      ghost var st := State();
      E.UpdateMealItemMeals(st, s, i, e);
      var items := meals[s];
      if i == |items| {
        FillThenSet(items, e);
        items := items + [EmptySlot];
      }
      var updated := items[i := ApplyMealEdit(items[i], e)];
      meals := meals[s := updated];
    }

    method AddMealItem(s: Section)
      requires isAdding || s in meals
      modifies this
      ensures State() == E.AddMealItem(old(State()), s)
    {
      if isAdding {
        return;
      }
      isAdding := true;
      meals := meals[s := meals[s] + [BlankMealItem]];
    }

    method RemoveMealItem(s: Section, i: nat)
      requires s in meals
      modifies this
      ensures State() == E.RemoveMealItem(old(State()), s, i)
    {
      var items := meals[s];
      if i < |items| {
        items := items[..i] + items[i + 1..];
      }
      meals := meals[s := items];
    }

    /** "Add from list" on item `i` of category `s`. */
    method OpenPicker(s: Section, i: nat)
      requires s in meals && i < |meals[s]|
      modifies this
      ensures State() == old(State()).(recipeModal := Some(E.PickerTarget(s, i)))
      ensures E.TargetExists(State())
    {
      recipeModal := Some(E.PickerTarget(s, i));
    }

    /** The picker's close button. */
    method ClosePicker()
      modifies this
      ensures State() == old(State()).(recipeModal := None)
    {
      recipeModal := None;
    }

    /** `addRecipeToMeal`; `threw` reports that the target no longer exists, so reading its
        recipes throws and the caller's remaining statements do not run. */
    method AddRecipeToMeal(recipe: E.RecipeRef) returns (threw: bool)
      modifies this
      ensures State() == E.AddRecipeToMeal(old(State()), recipe)
      ensures threw <==> old(recipeModal).Some? && !E.TargetExists(old(State()))
    {
      threw := false;
      if recipeModal.None? {
        return;
      }
      var target := recipeModal.value;
      if !(target.section in meals && target.index < |meals[target.section]|) {
        threw := true;
        return;
      }
      var current := meals[target.section][target.index].recipes;
      UpdateMealItem(target.section, target.index, SetRecipes(current + [recipe.id]));
      recipeModal := None;
    }

    method RemoveRecipeChip(s: Section, i: nat, id: string)
      requires s in meals && i < |meals[s]|
      modifies this
      ensures State() == E.RemoveRecipeChip(old(State()), s, i, id)
    {
      var next := RemoveAll(meals[s][i].recipes, id);
      UpdateMealItem(s, i, SetRecipes(next));
    }

    method UpdateWorkoutField(w: nat, e: WorkoutEdit)
      requires w < |workouts|
      modifies this
      ensures State() == E.UpdateWorkoutField(old(State()), w, e)
    {
      workouts := workouts[w := ApplyWorkoutEdit(workouts[w], e)];
    }

    method AddWorkout()
      modifies this
      ensures State() == E.AddWorkout(old(State()))
    {
      if isAdding {
        return;
      }
      isAdding := true;
      workouts := workouts + [BlankWorkout];
    }

    method RemoveWorkout(w: nat)
      modifies this
      ensures State() == E.RemoveWorkout(old(State()), w)
    {
      if w < |workouts| {
        workouts := workouts[..w] + workouts[w + 1..];
      }
    }

    method AddSubVideo(w: nat)
      requires isAdding || w < |workouts|
      modifies this
      ensures State() == E.AddSubVideo(old(State()), w)
    {
      if isAdding {
        return;
      }
      isAdding := true;
      var wk := workouts[w];
      workouts := workouts[w := wk.(subVideos := wk.subVideos + [BlankSubVideo])];
    }

    method RemoveSubVideo(w: nat, v: nat)
      requires w < |workouts|
      modifies this
      ensures State() == E.RemoveSubVideo(old(State()), w, v)
    {
      var wk := workouts[w];
      var subs := wk.subVideos;
      if v < |subs| {
        subs := subs[..v] + subs[v + 1..];
      }
      workouts := workouts[w := wk.(subVideos := subs)];
    }

    method UpdateSubVideoField(w: nat, v: nat, e: SubVideoEdit)
      requires w < |workouts| && v < |workouts[w].subVideos|
      modifies this
      ensures State() == E.UpdateSubVideoField(old(State()), w, v, e)
    {
      var wk := workouts[w];
      workouts := workouts[w := wk.(subVideos := wk.subVideos[v := ApplySubVideoEdit(wk.subVideos[v], e)])];
    }

    /** The `setTimeout(() => setIsAdding(false), 50)` callback. */
    method Tick()
      modifies this
      ensures State() == E.Tick(old(State()))
    {
      isAdding := false;
    }

    /** `fetchPlan`'s state updates for a payload with `data.data`. */
    method Hydrate(raw: RawPlan)
      modifies this
      ensures State() == E.Hydrate(old(State()), raw)
    {
      quote := raw.quote.GetOr("");
      var m := NormalizeMeals(raw.meals);
      if m.None? {
        return;
      }
      meals := m.value;
      var ws := NormalizeWorkouts(raw.workouts);
      if ws.None? {
        return;
      }
      workouts := ws.value;
    }

    /** `validate()`: stores every failing rule's message and reports whether there
        were none, which is exactly when the document is valid. */
    method Validate() returns (ok: bool)
      modifies this
      ensures State() == old(State()).(errors := errors)
      ensures forall k :: k in errors <==> Fails(Document(), k)
      ensures forall k :: k in errors ==> errors[k] == Message(k)
      ensures ok <==> PlanValid(Document())
    {
      var e := CollectErrors(Document());
      errors := e;
      ok := |e| == 0;
      NoErrorsIffValid(Document(), e);
    }

    /** `handleSubmit()`: validates, then describes the one request to send, if any. */
    method HandleSubmit() returns (req: Option<Request>)
      modifies this
      ensures State() == old(State()).(errors := errors)
      ensures forall k :: k in errors <==> Fails(Document(), k)
      ensures req == SubmitRequest(mode, Document(), PlanValid(Document()))
    {
      var ok := Validate();
      req := SubmitRequest(mode, Document(), ok);
    }
  }

  /** The form's own picker: a selection and an Add button. */
  class RecipePicker {
    var selected: string

    constructor ()
      ensures selected == ""
    {
      selected := "";
    }

    method Select(id: string)
      modifies this
      ensures selected == id
    {
      selected := id;
    }

    /** The first half of `handleAdd`: the option to hand to `onAdd`, if any. */
    method Choice(options: seq<E.RecipeRef>) returns (added: Option<E.RecipeRef>)
      ensures added == E.PickerChoice(options, selected)
    {
      if selected == "" {
        return None;
      }
      added := E.FindRecipe(options, selected);
    }

    /** `setSelectedRecipe("")`. */
    method Clear()
      modifies this
      ensures selected == ""
    {
      selected := "";
    }
  }

  /** The picker's `handleAdd` with `onAdd={addRecipeToMeal}`: the form changes only when
      the selection names a listed recipe. The selection is cleared afterwards unless
      `onAdd` threw on a target that no longer exists; then it is kept, and so is the open
      picker. */
  method PickerAdd(form: DailyPlanForm, picker: RecipePicker, options: seq<E.RecipeRef>)
      returns (added: Option<E.RecipeRef>)
    modifies form, picker
    ensures added == E.PickerChoice(options, old(picker.selected))
    ensures added.None? ==> form.State() == old(form.State())
    ensures added.Some? ==> form.State() == E.AddRecipeToMeal(old(form.State()), added.value)
    ensures picker.selected
            == if added.Some? && old(form.recipeModal).Some? && !E.TargetExists(old(form.State()))
               then old(picker.selected) else ""
  {
    added := picker.Choice(options);
    if added.Some? {
      var threw := form.AddRecipeToMeal(added.value);
      if threw {
        return;
      }
    }
    picker.Clear();
  }

  /** A plan loaded after the picker opened replaces the meals the target pointed into:
      Add then changes nothing, and the picker stays open with its selection. */
  method LateLoadKeepsSelection() returns (form: DailyPlanForm, picker: RecipePicker)
    ensures form.recipeModal == Some(E.PickerTarget(Breakfast, 0))
    ensures form.meals == map[Breakfast := []]
    ensures picker.selected == "r1"
  {
    form := new DailyPlanForm(EditMode, Some(3));
    InitialMealsComplete();
    form.AddMealItem(Breakfast);
    form.OpenPicker(Breakfast, 0);
    var sent: map<Section, seq<RawMealItem>> := map[Breakfast := []];
    assert NormalizeItems(sent[Breakfast]) == Some([]);
    var loaded := NormalizeMeals(Some(sent));
    assert loaded.Some? && loaded.value.Keys == {Breakfast} && loaded.value[Breakfast] == [];
    assert loaded.value == map[Breakfast := []];
    form.Hydrate(RawPlan(Some("q"), Some(sent), Some([])));
    picker := new RecipePicker();
    picker.Select("r1");
    var added := PickerAdd(form, picker, [R1]);
    assert E.FindRecipe([R1], "r1") == Some(R1);
  }

  /** Two clicks on "+ Add" within one tick add one item. */
  method AddTwiceInOneTick(form: DailyPlanForm, s: Section)
    requires !form.isAdding && s in form.meals
    modifies form
    ensures s in form.meals && form.meals[s] == old(form.meals[s]) + [BlankMealItem]
    ensures form.isAdding
  {
    form.AddMealItem(s);
    form.AddMealItem(s);
  }

  /** Day 5 with the quote "Stay strong", one breakfast item "Oats" holding the recipe
      "r1", the other six categories empty, and no workouts. */
  const DayFive: Plan := Plan(5, "Stay strong",
                              InitialMeals[Breakfast := [MealItem("Oats", ["r1"], Some([]), Some(""))]], [])

  /** The document of the creation scenario passes every rule. */
  lemma DayFiveValid()
    ensures PlanValid(DayFive)
  {
    var m := DayFive.meals;
    var oats := MealItem("Oats", ["r1"], Some([]), Some(""));
    InitialMealsComplete();
    assert m[Breakfast] == [oats];
    assert forall s :: s in m && s != Breakfast ==> m[s] == [];
    assert !Blank("Stay strong") && !Blank(oats.title) && !Blank(oats.recipes[0]);
    assert forall s, i: nat :: s in m && i < |m[s]| ==> m[s][i] == oats;
  }

  /** The user's first steps on a new form: set the day and quote, add a breakfast item
      and type its title. */
  method StartDayFive(form: DailyPlanForm)
    requires form.State() == E.Initial(None)
    modifies form
    ensures form.day == 5 && form.quote == "Stay strong" && form.workouts == []
    ensures form.meals == InitialMeals[Breakfast := [BlankMealItem.(title := "Oats")]]
  {
    form.SetDay(5);
    form.SetQuote("Stay strong");
    AddOats(form);
  }

  /** "+ Add" under Breakfast on the empty categories, then the title "Oats". */
  method AddOats(form: DailyPlanForm)
    requires form.meals == InitialMeals && !form.isAdding
    modifies form
    ensures form.day == old(form.day) && form.quote == old(form.quote) && form.workouts == old(form.workouts)
    ensures form.meals == InitialMeals[Breakfast := [BlankMealItem.(title := "Oats")]]
  {
    InitialMealsComplete();
    form.AddMealItem(Breakfast);
    assert InitialMeals[Breakfast] + [BlankMealItem] == [BlankMealItem];
    assert form.meals == InitialMeals[Breakfast := [BlankMealItem]];
    form.Tick();
    form.UpdateMealItem(Breakfast, 0, SetTitle("Oats"));
    assert UpdateSlot([BlankMealItem], 0, SetTitle("Oats")) == [BlankMealItem.(title := "Oats")];
  }

  /** Then "Add from list" on that item, choose "r1", and Add. */
  method PickR1(form: DailyPlanForm)
    requires form.day == 5 && form.quote == "Stay strong" && form.workouts == []
    requires form.meals == InitialMeals[Breakfast := [BlankMealItem.(title := "Oats")]]
    modifies form
    ensures form.Document() == DayFive
  {
    form.OpenPicker(Breakfast, 0);
    ghost var st := form.State();
    ChooseR1(form);
    OatsWithR1(st);
  }

  /** The option list holding "r1"; the picker's choice is that option. */
  const R1 := E.RecipeRef("r1", Some("Overnight oats"))

  method ChooseR1(form: DailyPlanForm)
    modifies form
    ensures form.State() == E.AddRecipeToMeal(old(form.State()), R1)
  {
    var picker := new RecipePicker();
    picker.Select("r1");
    var added := PickerAdd(form, picker, [R1]);
    assert E.FindRecipe([R1], "r1") == Some(R1);
  }

  /** Adding "r1" to the lone breakfast item "Oats" gives the day-five categories. */
  lemma OatsWithR1(st: E.FormState)
    requires st.meals == InitialMeals[Breakfast := [BlankMealItem.(title := "Oats")]]
    requires st.recipeModal == Some(E.PickerTarget(Breakfast, 0))
    ensures E.AddRecipeToMeal(st, R1).meals == DayFive.meals
  {
    var m := E.AddRecipeToMeal(st, R1).meals;
    assert BlankMealItem.(title := "Oats").recipes + ["r1"] == ["r1"];
    assert m[Breakfast] == [MealItem("Oats", ["r1"], Some([]), Some(""))];
  }

  /** Creating that plan sends exactly one POST to the collection carrying exactly that
      document. */
  method CreateDayFive() returns (req: Option<Request>)
    ensures req == Some(Request(Post, "/dailyPlan", DayFive))
  {
    var form := new DailyPlanForm(AddMode, None);
    StartDayFive(form);
    PickR1(form);
    DayFiveValid();
    req := form.HandleSubmit();
  }
}
