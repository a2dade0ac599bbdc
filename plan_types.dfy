/** The canonical daily-plan document the form edits: every reference to a recipe or a
    yoga video is an `_id` string. */
module PlanTypes {
  import opened Wrappers

  /** The seven meal categories of a day. */
  datatype Section = EmptyStomach | Breakfast | MidMorning | Lunch | Evening | Dinner | BeforeBed

  /** The categories in the order the empty document lists them. */
  const AllSections: seq<Section> := [EmptyStomach, Breakfast, MidMorning, Lunch, Evening, Dinner, BeforeBed]

  /** Position of a category in `AllSections`. */
  function SectionIndex(s: Section): (n: nat)
    ensures n < |AllSections| && AllSections[n] == s
  {
    match s
    case EmptyStomach => 0
    case Breakfast => 1
    case MidMorning => 2
    case Lunch => 3
    case Evening => 4
    case Dinner => 5
    case BeforeBed => 6
  }

  /** The category's key in the `meals` object. */
  function SectionName(s: Section): string {
    match s
    case EmptyStomach => "emptyStomach"
    case Breakfast => "breakfast"
    case MidMorning => "midMorning"
    case Lunch => "lunch"
    case Evening => "evening"
    case Dinner => "dinner"
    case BeforeBed => "beforeBed"
  }

  /** Reads a category key back; anything else is not a category. */
  function SectionFromName(name: string): (r: Option<Section>)
    ensures r.Some? ==> SectionName(r.value) == name
  {
    if name == "emptyStomach" then Some(EmptyStomach)
    else if name == "breakfast" then Some(Breakfast)
    else if name == "midMorning" then Some(MidMorning)
    else if name == "lunch" then Some(Lunch)
    else if name == "evening" then Some(Evening)
    else if name == "dinner" then Some(Dinner)
    else if name == "beforeBed" then Some(BeforeBed)
    else None
  }

  /** Every category key reads back as its category, so the keys are distinct. */
  lemma SectionNameRoundTrip(s: Section)
    ensures SectionFromName(SectionName(s)) == Some(s)
  {
  }

  /** One entry of a meal category. `alternateRecipes` and `notes` are optional fields. */
  datatype MealItem = MealItem(title: string, recipes: seq<string>, alternateRecipes: Option<seq<string>>, notes: Option<string>)

  /** One part of a workout, referring to a yoga video by `workoutId`. */
  datatype SubVideo = SubVideo(title: string, workoutId: string, duration: Option<string>, notes: Option<string>)

  /** A workout: a full-length video reference and its parts. `id` is the server's `_id`. */
  datatype Workout = Workout(title: string, followAlongFullVideo: string, subVideos: seq<SubVideo>, notes: Option<string>, id: Option<string>)

  /** The `meals` object: exactly the categories it holds are its keys. */
  type Meals = map<Section, seq<MealItem>>

  /** The document the form submits: `{day, meals, workouts, quote}`. */
  datatype Plan = Plan(day: int, quote: string, meals: Meals, workouts: seq<Workout>)

  /** Whether the form creates a plan or edits one. */
  datatype Mode = AddMode | EditMode

  /** The empty `meals` of a new form: all seven categories, no items. */
  const InitialMeals: Meals := map[EmptyStomach := [], Breakfast := [], MidMorning := [], Lunch := [],
                                   Evening := [], Dinner := [], BeforeBed := []]

  /** Every category is present in a new form, and each is empty. */
  lemma InitialMealsComplete()
    ensures forall s :: s in InitialMeals && InitialMeals[s] == []
  {
    forall s ensures s in InitialMeals && InitialMeals[s] == [] {
      match s
      case EmptyStomach =>
      case Breakfast =>
      case MidMorning =>
      case Lunch =>
      case Evening =>
      case Dinner =>
      case BeforeBed =>
    }
  }

  /** What "Add" appends to a category. */
  const BlankMealItem := MealItem("", [], Some([]), Some(""))

  /** What editing a field of a missing slot first puts there. */
  const EmptySlot := MealItem("", [], None, None)

  /** What "Add Workout" appends. */
  const BlankWorkout := Workout("", "", [], Some(""), None)

  /** What "Add SubVideo" appends. */
  const BlankSubVideo := SubVideo("", "", Some(""), Some(""))

  /** The records the add buttons append have every field empty. The slot a field edit
      materialises has only a title and recipes, so it lacks the alternates and notes that a
      newly added item carries. */
  lemma BlankRecords()
    ensures BlankMealItem.title == EmptySlot.title == "" && BlankMealItem.recipes == EmptySlot.recipes == []
    ensures BlankMealItem.alternateRecipes == Some([]) && BlankMealItem.notes == Some("")
    ensures EmptySlot.alternateRecipes.None? && EmptySlot.notes.None? && EmptySlot != BlankMealItem
    ensures BlankWorkout.title == BlankWorkout.followAlongFullVideo == "" && BlankWorkout.subVideos == []
    ensures BlankWorkout.notes == Some("") && BlankWorkout.id.None?
    ensures BlankSubVideo.title == BlankSubVideo.workoutId == ""
    ensures BlankSubVideo.duration == BlankSubVideo.notes == Some("")
  {
  }

  // ---------------------------------------------------------------- single-field edits

  /** Naming the fields, so that "every other field is unchanged" can be said once. */
  datatype MealField = TitleOf | RecipesOf | AlternatesOf | NotesOf
  datatype WorkoutField = WorkoutTitleOf | FullVideoOf | SubVideosOf | WorkoutNotesOf | WorkoutIdOf
  datatype SubVideoField = SubTitleOf | WorkoutIdRefOf | DurationOf | SubNotesOf

  /** Setting one field of a meal item to a value. */
  datatype MealEdit =
    | SetTitle(title: string)
    | SetRecipes(recipes: seq<string>)
    | SetAlternates(alternates: seq<string>)
    | SetNotes(notes: string)

  /** Setting one field of a workout to a value. */
  datatype WorkoutEdit =
    | SetWorkoutTitle(title: string)
    | SetFullVideo(video: string)
    | SetSubVideos(subVideos: seq<SubVideo>)
    | SetWorkoutNotes(notes: string)
    | SetWorkoutId(id: string)

  /** Setting one field of a sub-video to a value; the yoga reference is a string. */
  datatype SubVideoEdit =
    | SetSubTitle(title: string)
    | SetYoga(workoutId: string)
    | SetDuration(duration: string)
    | SetSubNotes(notes: string)

  function MealEditField(e: MealEdit): MealField {
    match e
    case SetTitle(_) => TitleOf
    case SetRecipes(_) => RecipesOf
    case SetAlternates(_) => AlternatesOf
    case SetNotes(_) => NotesOf
  }

  function WorkoutEditField(e: WorkoutEdit): WorkoutField {
    match e
    case SetWorkoutTitle(_) => WorkoutTitleOf
    case SetFullVideo(_) => FullVideoOf
    case SetSubVideos(_) => SubVideosOf
    case SetWorkoutNotes(_) => WorkoutNotesOf
    case SetWorkoutId(_) => WorkoutIdOf
  }

  function SubVideoEditField(e: SubVideoEdit): SubVideoField {
    match e
    case SetSubTitle(_) => SubTitleOf
    case SetYoga(_) => WorkoutIdRefOf
    case SetDuration(_) => DurationOf
    case SetSubNotes(_) => SubNotesOf
  }

  predicate SameMealField(a: MealItem, b: MealItem, f: MealField) {
    match f
    case TitleOf => a.title == b.title
    case RecipesOf => a.recipes == b.recipes
    case AlternatesOf => a.alternateRecipes == b.alternateRecipes
    case NotesOf => a.notes == b.notes
  }

  predicate SameWorkoutField(a: Workout, b: Workout, f: WorkoutField) {
    match f
    case WorkoutTitleOf => a.title == b.title
    case FullVideoOf => a.followAlongFullVideo == b.followAlongFullVideo
    case SubVideosOf => a.subVideos == b.subVideos
    case WorkoutNotesOf => a.notes == b.notes
    case WorkoutIdOf => a.id == b.id
  }

  predicate SameSubVideoField(a: SubVideo, b: SubVideo, f: SubVideoField) {
    match f
    case SubTitleOf => a.title == b.title
    case WorkoutIdRefOf => a.workoutId == b.workoutId
    case DurationOf => a.duration == b.duration
    case SubNotesOf => a.notes == b.notes
  }

  /** The edit's value is now in its field. */
  predicate MealEditHolds(item: MealItem, e: MealEdit) {
    match e
    case SetTitle(t) => item.title == t
    case SetRecipes(rs) => item.recipes == rs
    case SetAlternates(rs) => item.alternateRecipes == Some(rs)
    case SetNotes(n) => item.notes == Some(n)
  }

  predicate WorkoutEditHolds(w: Workout, e: WorkoutEdit) {
    match e
    case SetWorkoutTitle(t) => w.title == t
    case SetFullVideo(v) => w.followAlongFullVideo == v
    case SetSubVideos(vs) => w.subVideos == vs
    case SetWorkoutNotes(n) => w.notes == Some(n)
    case SetWorkoutId(i) => w.id == Some(i)
  }

  predicate SubVideoEditHolds(v: SubVideo, e: SubVideoEdit) {
    match e
    case SetSubTitle(t) => v.title == t
    case SetYoga(y) => v.workoutId == y
    case SetDuration(d) => v.duration == Some(d)
    case SetSubNotes(n) => v.notes == Some(n)
  }

  /** `(item as any)[field] = value`: the named field takes the value, all others stay. */
  function ApplyMealEdit(item: MealItem, e: MealEdit): (r: MealItem)
    ensures MealEditHolds(r, e)
    ensures forall f :: f != MealEditField(e) ==> SameMealField(r, item, f)
  {
    match e
    case SetTitle(t) => item.(title := t)
    case SetRecipes(rs) => item.(recipes := rs)
    case SetAlternates(rs) => item.(alternateRecipes := Some(rs))
    case SetNotes(n) => item.(notes := Some(n))
  }

  function ApplyWorkoutEdit(w: Workout, e: WorkoutEdit): (r: Workout)
    ensures WorkoutEditHolds(r, e)
    ensures forall f :: f != WorkoutEditField(e) ==> SameWorkoutField(r, w, f)
  {
    match e
    case SetWorkoutTitle(t) => w.(title := t)
    case SetFullVideo(v) => w.(followAlongFullVideo := v)
    case SetSubVideos(vs) => w.(subVideos := vs)
    case SetWorkoutNotes(n) => w.(notes := Some(n))
    case SetWorkoutId(i) => w.(id := Some(i))
  }

  function ApplySubVideoEdit(v: SubVideo, e: SubVideoEdit): (r: SubVideo)
    ensures SubVideoEditHolds(r, e)
    ensures forall f :: f != SubVideoEditField(e) ==> SameSubVideoField(r, v, f)
  {
    match e
    case SetSubTitle(t) => v.(title := t)
    case SetYoga(y) => v.(workoutId := y)
    case SetDuration(d) => v.(duration := Some(d))
    case SetSubNotes(n) => v.(notes := Some(n))
  }

  /** `updateMealItem` on one category's list: a missing slot at the end is first filled
      with `{title: "", recipes: []}`, then the field is set; every other slot stays. */
  function UpdateSlot(items: seq<MealItem>, index: nat, e: MealEdit): (r: seq<MealItem>)
    requires index <= |items|
    ensures |r| == if index < |items| then |items| else |items| + 1
    ensures r[index] == ApplyMealEdit(if index < |items| then items[index] else EmptySlot, e)
    ensures forall k :: 0 <= k < |items| && k != index ==> r[k] == items[k]
  {
    if index < |items| then items[index := ApplyMealEdit(items[index], e)]
    else items + [ApplyMealEdit(EmptySlot, e)]
  }

  /** Filling the missing slot and then setting the field is the update at the end. */
  lemma FillThenSet(items: seq<MealItem>, e: MealEdit)
    ensures (items + [EmptySlot])[|items| := ApplyMealEdit(EmptySlot, e)] == UpdateSlot(items, |items|, e)
  {
    assert (items + [EmptySlot])[|items| := ApplyMealEdit(EmptySlot, e)] == items + [ApplyMealEdit(EmptySlot, e)];
  }
}
