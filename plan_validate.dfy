/** The daily-plan validator: every rule is checked, each failure is recorded under a key
    naming the offending input, and the plan may be submitted only when no rule fails. */
module PlanValidate {
  import opened Wrappers
  import opened Text
  import opened PlanTypes

  /** The inputs a message can be attached to. */
  datatype ErrorKey =
    | DayKey
    | QuoteKey
    | MealTitleKey(section: Section, item: nat)
    | MealRecipeKey(section: Section, item: nat, recipe: nat)
    | WorkoutTitleKey(workout: nat)
    | SubVideoTitleKey(workout: nat, sub: nat)
    | SubVideoYogaKey(workout: nat, sub: nat)

  predicate IsMealKey(k: ErrorKey) {
    k.MealTitleKey? || k.MealRecipeKey?
  }

  predicate IsWorkoutKey(k: ErrorKey) {
    k.WorkoutTitleKey? || k.SubVideoTitleKey? || k.SubVideoYogaKey?
  }

  /** The key string the form uses, as its template literals build it. */
  function Render(k: ErrorKey): string {
    match k
    case DayKey => "day"
    case QuoteKey => "quote"
    case MealTitleKey(s, i) => "meal-" + SectionName(s) + "-" + NatToString(i)
    case MealRecipeKey(s, i, j) => "meal-" + SectionName(s) + "-" + NatToString(i) + "-recipe-" + NatToString(j)
    case WorkoutTitleKey(w) => "workout-" + NatToString(w)
    case SubVideoTitleKey(w, v) => "subvideo-title-" + NatToString(w) + "-" + NatToString(v)
    case SubVideoYogaKey(w, v) => "subvideo-yoga-" + NatToString(w) + "-" + NatToString(v)
  }

  /** The message stored under a key. */
  function Message(k: ErrorKey): string {
    match k
    case DayKey => "Day must be >= 1"
    case QuoteKey => "Quote is required"
    case MealTitleKey(_, _) => "Meal title required"
    case MealRecipeKey(_, _, _) => "Recipe ID required"
    case WorkoutTitleKey(_) => "Workout title required"
    case SubVideoTitleKey(_, _) => "SubVideo title required"
    case SubVideoYogaKey(_, _) => "Yoga selection required"
  }

  // ---------------------------------------------------------------- keys are unambiguous

  /** The `-`-separated pieces of a rendered key. */
  function KeyParts(k: ErrorKey): seq<string> {
    match k
    case DayKey => ["day"]
    case QuoteKey => ["quote"]
    case MealTitleKey(s, i) => ["meal", SectionName(s), NatToString(i)]
    case MealRecipeKey(s, i, j) => ["meal", SectionName(s), NatToString(i), "recipe", NatToString(j)]
    case WorkoutTitleKey(w) => ["workout", NatToString(w)]
    case SubVideoTitleKey(w, v) => ["subvideo", "title", NatToString(w), NatToString(v)]
    case SubVideoYogaKey(w, v) => ["subvideo", "yoga", NatToString(w), NatToString(v)]
  }

  /** Reads the pieces of a key back. */
  function ParseParts(p: seq<string>): Option<ErrorKey> {
    if p == ["day"] then Some(DayKey)
    else if p == ["quote"] then Some(QuoteKey)
    else if |p| == 3 && p[0] == "meal" && SectionFromName(p[1]).Some? && ParseNat(p[2]).Some? then
      Some(MealTitleKey(SectionFromName(p[1]).value, ParseNat(p[2]).value))
    else if |p| == 5 && p[0] == "meal" && p[3] == "recipe" && SectionFromName(p[1]).Some?
         && ParseNat(p[2]).Some? && ParseNat(p[4]).Some? then
      Some(MealRecipeKey(SectionFromName(p[1]).value, ParseNat(p[2]).value, ParseNat(p[4]).value))
    else if |p| == 2 && p[0] == "workout" && ParseNat(p[1]).Some? then
      Some(WorkoutTitleKey(ParseNat(p[1]).value))
    else if |p| == 4 && p[0] == "subvideo" && p[1] == "title" && ParseNat(p[2]).Some? && ParseNat(p[3]).Some? then
      Some(SubVideoTitleKey(ParseNat(p[2]).value, ParseNat(p[3]).value))
    else if |p| == 4 && p[0] == "subvideo" && p[1] == "yoga" && ParseNat(p[2]).Some? && ParseNat(p[3]).Some? then
      Some(SubVideoYogaKey(ParseNat(p[2]).value, ParseNat(p[3]).value))
    else None
  }

  /** Reads a key string back into the input it names. */
  function ParseKey(s: string): Option<ErrorKey> {
    ParseParts(Split(s, '-'))
  }

  lemma NoDashInNumber(n: nat)
    ensures '-' !in NatToString(n)
  {
  }

  lemma NoDashInSection(s: Section)
    ensures '-' !in SectionName(s)
  {
  }

  lemma Join2(a: string, b: string, sep: string)
    ensures Join([a, b], sep) == a + sep + b
  {
    JoinCons(a, [b], sep);
  }

  lemma Join3(a: string, b: string, c: string, sep: string)
    ensures Join([a, b, c], sep) == a + sep + b + sep + c
  {
    Join2(b, c, sep);
    JoinCons(a, [b, c], sep);
  }

  lemma Join4(a: string, b: string, c: string, d: string, sep: string)
    ensures Join([a, b, c, d], sep) == a + sep + b + sep + c + sep + d
  {
    Join3(b, c, d, sep);
    JoinCons(a, [b, c, d], sep);
  }

  lemma Join5(a: string, b: string, c: string, d: string, e: string, sep: string)
    ensures Join([a, b, c, d, e], sep) == a + sep + b + sep + c + sep + d + sep + e
  {
    Join4(b, c, d, e, sep);
    JoinCons(a, [b, c, d, e], sep);
  }

  lemma MealTitleIsJoin(s: Section, i: nat)
    ensures Render(MealTitleKey(s, i)) == Join(KeyParts(MealTitleKey(s, i)), "-")
  {
    Join3("meal", SectionName(s), NatToString(i), "-");
    assert "meal-" == "meal" + "-";
  }

  lemma Regroup(x: string, y: string, z: string, w: string, b: string)
    ensures x + (y + z + w) + b == x + y + z + w + b
  {
  }

  lemma MealRecipeIsJoin(s: Section, i: nat, j: nat)
    ensures Render(MealRecipeKey(s, i, j)) == Join(KeyParts(MealRecipeKey(s, i, j)), "-")
  {
    var n, a, b := SectionName(s), NatToString(i), NatToString(j);
    Join5("meal", n, a, "recipe", b, "-");
    var title := "meal-" + n + "-" + a;
    assert "meal" + "-" == "meal-";
    assert "meal" + "-" + n + "-" + a == title;
    assert "-" + "recipe" + "-" == "-recipe-";
    Regroup(title, "-", "recipe", "-", b);
  }

  lemma WorkoutTitleIsJoin(w: nat)
    ensures Render(WorkoutTitleKey(w)) == Join(KeyParts(WorkoutTitleKey(w)), "-")
  {
    Join2("workout", NatToString(w), "-");
    assert "workout-" == "workout" + "-";
  }

  lemma SubVideoIsJoin(kind: string, w: nat, v: nat)
    ensures Join(["subvideo", kind, NatToString(w), NatToString(v)], "-")
         == "subvideo-" + kind + "-" + NatToString(w) + "-" + NatToString(v)
  {
    Join4("subvideo", kind, NatToString(w), NatToString(v), "-");
    assert "subvideo-" == "subvideo" + "-";
  }

  /** The rendered key is its pieces joined with `-`. */
  lemma RenderIsJoin(k: ErrorKey)
    ensures Render(k) == Join(KeyParts(k), "-")
  {
    match k
    case DayKey =>
    case QuoteKey =>
    case MealTitleKey(s, i) => MealTitleIsJoin(s, i);
    case MealRecipeKey(s, i, j) => MealRecipeIsJoin(s, i, j);
    case WorkoutTitleKey(w) => WorkoutTitleIsJoin(w);
    case SubVideoTitleKey(w, v) =>
      SubVideoIsJoin("title", w, v);
      assert "subvideo-title-" == "subvideo-" + "title" + "-";
    case SubVideoYogaKey(w, v) =>
      SubVideoIsJoin("yoga", w, v);
      assert "subvideo-yoga-" == "subvideo-" + "yoga" + "-";
  }

  /** Every key string reads back as the key it was rendered from. */
  lemma ParseRender(k: ErrorKey)
    ensures ParseKey(Render(k)) == Some(k)
  {
    RenderIsJoin(k);
    var p := KeyParts(k);
    assert forall i :: 0 <= i < |p| ==> '-' !in p[i] by {
      match k
      case MealTitleKey(s, i) => NoDashInSection(s); NoDashInNumber(i);
      case MealRecipeKey(s, i, j) => NoDashInSection(s); NoDashInNumber(i); NoDashInNumber(j);
      case WorkoutTitleKey(w) => NoDashInNumber(w);
      case SubVideoTitleKey(w, v) => NoDashInNumber(w); NoDashInNumber(v);
      case SubVideoYogaKey(w, v) => NoDashInNumber(w); NoDashInNumber(v);
      case _ =>
    }
    SplitJoin(p, '-');
    ParsePartsOfKey(k);
  }

  lemma ParsePartsOfKey(k: ErrorKey)
    ensures ParseParts(KeyParts(k)) == Some(k)
  {
    match k
    case MealTitleKey(s, i) => ParseNatToString(i); SectionNameRoundTrip(s);
    case MealRecipeKey(s, i, j) => ParseNatToString(i); ParseNatToString(j); SectionNameRoundTrip(s);
    case WorkoutTitleKey(w) => ParseNatToString(w);
    case SubVideoTitleKey(w, v) => ParseNatToString(w); ParseNatToString(v);
    case SubVideoYogaKey(w, v) => ParseNatToString(w); ParseNatToString(v);
    case _ =>
  }

  /** Distinct inputs get distinct key strings, so no message overwrites another's. */
  lemma RenderInjective(k1: ErrorKey, k2: ErrorKey)
    requires Render(k1) == Render(k2)
    ensures k1 == k2
  {
    ParseRender(k1);
    ParseRender(k2);
  }

  // ---------------------------------------------------------------- the rules

  /** The rule behind key `k` fails for plan `p`: the key is present in the validator's
      result exactly when this holds. Day: `!day || day < 1`; every other rule: the
      string is blank after trimming. `followAlongFullVideo`, notes, duration and
      `alternateRecipes` are never checked. */
  predicate Fails(p: Plan, k: ErrorKey) {
    match k
    case DayKey => p.day < 1
    case QuoteKey => Blank(p.quote)
    case MealTitleKey(s, i) =>
      s in p.meals && i < |p.meals[s]| && Blank(p.meals[s][i].title)
    case MealRecipeKey(s, i, j) =>
      s in p.meals && i < |p.meals[s]| && j < |p.meals[s][i].recipes| && Blank(p.meals[s][i].recipes[j])
    case WorkoutTitleKey(w) =>
      w < |p.workouts| && Blank(p.workouts[w].title)
    case SubVideoTitleKey(w, v) =>
      w < |p.workouts| && v < |p.workouts[w].subVideos| && Blank(p.workouts[w].subVideos[v].title)
    case SubVideoYogaKey(w, v) =>
      w < |p.workouts| && v < |p.workouts[w].subVideos| && Blank(p.workouts[w].subVideos[v].workoutId)
  }

  /** A submittable plan, stated field by field. */
  ghost predicate PlanValid(p: Plan) {
    && p.day >= 1
    && !Blank(p.quote)
    && (forall s, i: nat :: s in p.meals && i < |p.meals[s]| ==> !Blank(p.meals[s][i].title))
    && (forall s, i: nat, j: nat :: s in p.meals && i < |p.meals[s]| && j < |p.meals[s][i].recipes|
          ==> !Blank(p.meals[s][i].recipes[j]))
    && (forall w: nat :: w < |p.workouts| ==> !Blank(p.workouts[w].title))
    && (forall w: nat, v: nat :: w < |p.workouts| && v < |p.workouts[w].subVideos|
          ==> !Blank(p.workouts[w].subVideos[v].title) && !Blank(p.workouts[w].subVideos[v].workoutId))
  }

  /** The field-by-field description and the rule-by-rule one agree. */
  lemma ValidIffNoFailure(p: Plan)
    ensures PlanValid(p) <==> forall k :: !Fails(p, k)
  {
    if PlanValid(p) {
      forall k ensures !Fails(p, k) {
        ValidMeansRuleHolds(p, k);
      }
    }
    if forall k :: !Fails(p, k) {
      NoFailureMeansValid(p);
    }
  }

  lemma ValidMeansRuleHolds(p: Plan, k: ErrorKey)
    requires PlanValid(p)
    ensures !Fails(p, k)
  {
    match k
    case MealTitleKey(s, i) =>
    case MealRecipeKey(s, i, j) =>
    case WorkoutTitleKey(w) =>
    case SubVideoTitleKey(w, v) =>
    case SubVideoYogaKey(w, v) =>
    case _ =>
  }

  lemma NoFailureMeansValid(p: Plan)
    requires forall k :: !Fails(p, k)
    ensures PlanValid(p)
  {
    assert !Fails(p, DayKey) && !Fails(p, QuoteKey);
    forall s, i: nat | s in p.meals && i < |p.meals[s]| ensures !Blank(p.meals[s][i].title) {
      assert !Fails(p, MealTitleKey(s, i));
    }
    forall s, i: nat, j: nat | s in p.meals && i < |p.meals[s]| && j < |p.meals[s][i].recipes|
      ensures !Blank(p.meals[s][i].recipes[j])
    {
      assert !Fails(p, MealRecipeKey(s, i, j));
    }
    forall w: nat | w < |p.workouts| ensures !Blank(p.workouts[w].title) {
      assert !Fails(p, WorkoutTitleKey(w));
    }
    forall w: nat, v: nat | w < |p.workouts| && v < |p.workouts[w].subVideos|
      ensures !Blank(p.workouts[w].subVideos[v].title) && !Blank(p.workouts[w].subVideos[v].workoutId)
    {
      assert !Fails(p, SubVideoTitleKey(w, v));
      assert !Fails(p, SubVideoYogaKey(w, v));
    }
  }

  /** Setting the title of meal item `i` in category `s` decides its title error and
      leaves every other error as it was: fixing a title removes that key and no other. */
  lemma RetitleMealItem(p: Plan, s: Section, i: nat, t: string)
    requires s in p.meals && i < |p.meals[s]|
    ensures var q := p.(meals := p.meals[s := UpdateSlot(p.meals[s], i, SetTitle(t))]);
      && (Fails(q, MealTitleKey(s, i)) <==> Blank(t))
      && forall k :: k != MealTitleKey(s, i) ==> (Fails(q, k) <==> Fails(p, k))
  {
    var q := p.(meals := p.meals[s := UpdateSlot(p.meals[s], i, SetTitle(t))]);
    forall k | k != MealTitleKey(s, i) ensures Fails(q, k) <==> Fails(p, k) {
      match k
      case MealRecipeKey(s', i', j) =>
        if s' == s && i' == i {
          assert SameMealField(q.meals[s][i], p.meals[s][i], RecipesOf);
        }
      case _ =>
    }
  }

  // ---------------------------------------------------------------- the validator's loops

  /** The rules of item `i` of category `s` over its first `bound` recipe entries. */
  predicate ItemRuleFails(s: Section, i: nat, item: MealItem, bound: nat, k: ErrorKey) {
    || (k == MealTitleKey(s, i) && Blank(item.title))
    || (k.MealRecipeKey? && k.section == s && k.item == i && k.recipe < bound
        && k.recipe < |item.recipes| && Blank(item.recipes[k.recipe]))
  }

  lemma ItemRulesAreRules(p: Plan, s: Section, i: nat, k: ErrorKey)
    requires s in p.meals && i < |p.meals[s]|
    ensures ItemRuleFails(s, i, p.meals[s][i], |p.meals[s][i].recipes|, k)
        <==> Fails(p, k) && IsMealKey(k) && k.section == s && k.item == i
  {
  }

  /** One more recipe entry adds at most its own rule. */
  lemma ItemRuleStep(s: Section, i: nat, item: MealItem, j: nat)
    requires j < |item.recipes|
    ensures forall k :: (ItemRuleFails(s, i, item, j + 1, k)
                         <==> ItemRuleFails(s, i, item, j, k) || (k == MealRecipeKey(s, i, j) && Blank(item.recipes[j])))
  {
    forall k
      ensures ItemRuleFails(s, i, item, j + 1, k)
              <==> ItemRuleFails(s, i, item, j, k) || (k == MealRecipeKey(s, i, j) && Blank(item.recipes[j]))
    {
      if k.MealRecipeKey? && k.section == s && k.item == i && k.recipe == j {
        assert k == MealRecipeKey(s, i, j);
      }
    }
  }

  /** The body of `items.forEach((item, idx) => ...)` for one item: its title rule and one
      rule per recipe entry. */
  method ItemErrors(p: Plan, s: Section, i: nat) returns (e: map<ErrorKey, string>)
    requires s in p.meals && i < |p.meals[s]|
    ensures forall k :: k in e <==> Fails(p, k) && IsMealKey(k) && k.section == s && k.item == i
    ensures forall k :: k in e ==> e[k] == Message(k)
  {
    var item := p.meals[s][i];
    e := map[];
    if Blank(item.title) {
      e := e[MealTitleKey(s, i) := Message(MealTitleKey(s, i))];
    }
    var j := 0;
    while j < |item.recipes|
      invariant 0 <= j <= |item.recipes|
      invariant forall k :: k in e <==> ItemRuleFails(s, i, item, j, k)
      invariant forall k :: k in e ==> e[k] == Message(k)
    {
      ItemRuleStep(s, i, item, j);
      if Blank(item.recipes[j]) {
        e := e[MealRecipeKey(s, i, j) := Message(MealRecipeKey(s, i, j))];
      }
      j := j + 1;
    }
    forall k ensures k in e <==> Fails(p, k) && IsMealKey(k) && k.section == s && k.item == i {
      ItemRulesAreRules(p, s, i, k);
    }
  }

  /** All errors of one meal category. */
  method SectionErrors(p: Plan, s: Section) returns (e: map<ErrorKey, string>)
    requires s in p.meals
    ensures forall k :: k in e <==> Fails(p, k) && IsMealKey(k) && k.section == s
    ensures forall k :: k in e ==> e[k] == Message(k)
  {
    e := map[];
    var i := 0;
    while i < |p.meals[s]|
      invariant 0 <= i <= |p.meals[s]|
      invariant forall k :: k in e <==> Fails(p, k) && IsMealKey(k) && k.section == s && k.item < i
      invariant forall k :: k in e ==> e[k] == Message(k)
    {
      var itemErrors := ItemErrors(p, s, i);
      e := e + itemErrors;
      i := i + 1;
    }
  }

  /** `Object.keys(meals).forEach(...)`: the errors of every category the plan holds. */
  method MealErrors(p: Plan) returns (e: map<ErrorKey, string>)
    ensures forall k :: k in e <==> Fails(p, k) && IsMealKey(k)
    ensures forall k :: k in e ==> e[k] == Message(k)
  {
    e := map[];
    var n := 0;
    while n < |AllSections|
      invariant 0 <= n <= |AllSections|
      invariant forall k :: k in e <==> Fails(p, k) && IsMealKey(k) && SectionIndex(k.section) < n
      invariant forall k :: k in e ==> e[k] == Message(k)
    {
      if AllSections[n] in p.meals {
        var sectionErrors := SectionErrors(p, AllSections[n]);
        e := e + sectionErrors;
      }
      n := n + 1;
    }
  }

  /** The rules of workout `w` over its first `bound` sub-videos. */
  predicate WorkoutRuleFails(w: nat, workout: Workout, bound: nat, k: ErrorKey) {
    || (k == WorkoutTitleKey(w) && Blank(workout.title))
    || (k.SubVideoTitleKey? && k.workout == w && k.sub < bound && k.sub < |workout.subVideos|
        && Blank(workout.subVideos[k.sub].title))
    || (k.SubVideoYogaKey? && k.workout == w && k.sub < bound && k.sub < |workout.subVideos|
        && Blank(workout.subVideos[k.sub].workoutId))
  }

  /** One more sub-video adds at most its own two rules. */
  lemma WorkoutRuleStep(w: nat, workout: Workout, v: nat)
    requires v < |workout.subVideos|
    ensures forall k :: (WorkoutRuleFails(w, workout, v + 1, k)
                         <==> || WorkoutRuleFails(w, workout, v, k)
                              || (k == SubVideoTitleKey(w, v) && Blank(workout.subVideos[v].title))
                              || (k == SubVideoYogaKey(w, v) && Blank(workout.subVideos[v].workoutId)))
  {
    forall k
      ensures WorkoutRuleFails(w, workout, v + 1, k)
              <==> || WorkoutRuleFails(w, workout, v, k)
                   || (k == SubVideoTitleKey(w, v) && Blank(workout.subVideos[v].title))
                   || (k == SubVideoYogaKey(w, v) && Blank(workout.subVideos[v].workoutId))
    {
      if k.SubVideoTitleKey? && k.workout == w && k.sub == v {
        assert k == SubVideoTitleKey(w, v);
      } else if k.SubVideoYogaKey? && k.workout == w && k.sub == v {
        assert k == SubVideoYogaKey(w, v);
      }
    }
  }

  lemma WorkoutRulesAreRules(p: Plan, w: nat, k: ErrorKey)
    requires w < |p.workouts|
    ensures WorkoutRuleFails(w, p.workouts[w], |p.workouts[w].subVideos|, k)
        <==> Fails(p, k) && IsWorkoutKey(k) && k.workout == w
  {
  }

  /** The body of `workouts.forEach((w, wIdx) => ...)` for one workout: its title rule and,
      per sub-video, the title and yoga rules. */
  method WorkoutErrors(p: Plan, w: nat) returns (e: map<ErrorKey, string>)
    requires w < |p.workouts|
    ensures forall k :: k in e <==> Fails(p, k) && IsWorkoutKey(k) && k.workout == w
    ensures forall k :: k in e ==> e[k] == Message(k)
  {
    var workout := p.workouts[w];
    e := map[];
    if Blank(workout.title) {
      e := e[WorkoutTitleKey(w) := Message(WorkoutTitleKey(w))];
    }
    var v := 0;
    while v < |workout.subVideos|
      invariant 0 <= v <= |workout.subVideos|
      invariant forall k :: k in e <==> WorkoutRuleFails(w, workout, v, k)
      invariant forall k :: k in e ==> e[k] == Message(k)
    {
      WorkoutRuleStep(w, workout, v);
      if Blank(workout.subVideos[v].title) {
        e := e[SubVideoTitleKey(w, v) := Message(SubVideoTitleKey(w, v))];
      }
      if Blank(workout.subVideos[v].workoutId) {
        e := e[SubVideoYogaKey(w, v) := Message(SubVideoYogaKey(w, v))];
      }
      v := v + 1;
    }
    forall k ensures k in e <==> Fails(p, k) && IsWorkoutKey(k) && k.workout == w {
      WorkoutRulesAreRules(p, w, k);
    }
  }

  method WorkoutsErrors(p: Plan) returns (e: map<ErrorKey, string>)
    ensures forall k :: k in e <==> Fails(p, k) && IsWorkoutKey(k)
    ensures forall k :: k in e ==> e[k] == Message(k)
  {
    e := map[];
    var w := 0;
    while w < |p.workouts|
      invariant 0 <= w <= |p.workouts|
      invariant forall k :: k in e <==> Fails(p, k) && IsWorkoutKey(k) && k.workout < w
      invariant forall k :: k in e ==> e[k] == Message(k)
    {
      var workoutErrors := WorkoutErrors(p, w);
      e := e + workoutErrors;
      w := w + 1;
    }
  }

  /** `validate`'s `newErrors`: a key is present exactly when its rule fails, with the
      rule's message; nothing short-circuits. */
  method CollectErrors(p: Plan) returns (e: map<ErrorKey, string>)
    ensures forall k :: k in e <==> Fails(p, k)
    ensures forall k :: k in e ==> e[k] == Message(k)
  {
    e := map[];
    if p.day < 1 {
      e := e[DayKey := Message(DayKey)];
    }
    if Blank(p.quote) {
      e := e[QuoteKey := Message(QuoteKey)];
    }
    var mealErrors := MealErrors(p);
    var workoutErrors := WorkoutsErrors(p);
    e := e + mealErrors + workoutErrors;
  }

  /** `Object.keys(newErrors).length === 0` holds exactly for a valid plan. */
  lemma NoErrorsIffValid(p: Plan, e: map<ErrorKey, string>)
    requires forall k :: k in e <==> Fails(p, k)
    ensures |e| == 0 <==> PlanValid(p)
  {
    ValidIffNoFailure(p);
    if |e| != 0 {
      var k :| k in e;
    }
  }
}
