# Daily-plan admin front end: a Dafny model

This project models the logic of a small admin front end for a health programme. Through it, staff write one
**daily plan** per day. A plan has four parts:

- a day number;
- a motivational quote;
- seven meal categories (empty stomach, breakfast, mid-morning, lunch, evening, dinner, before bed), each
  holding a list of meal items that reference recipes;
- a list of workouts, each with follow-along sub-videos that reference yoga videos.

The model covers three pieces of the front end:

- **The daily-plan editor** (`src/pages/DailyPlanFormPage.tsx`):
  - the canonical document and its types (module `PlanTypes`);
  - the normaliser that turns a stored plan, whose references may be embedded objects, into `_id` strings
    (`PlanNormalize`);
  - the index-based editing operations with their shared `isAdding` debounce flag (`PlanEditor` states them as
    functions on the whole form state);
  - the validator and its string-keyed error map (`PlanValidate`);
  - the submit decision (`PlanSubmit`);
  - the form object itself (`PlanForm`): class `DailyPlanForm`, whose methods update its fields and are proved
    against the `PlanEditor` functions, and class `RecipePicker`, the recipe picker dialog.
- **The daily-plan list's pagination** (`src/pages/DailyPlanListPage.tsx`, module `PlanList`):
  - integer ceiling division for the page count;
  - the clamped Previous/Next buttons, with the page state as class `Pager`.
- **The recipe forms** (`src/pages/RecipesPage.tsx`, `src/pages/AddRecipePage.tsx`,
  `src/pages/EditRecipePage.tsx`, module `RecipeForms`):
  - strict tag parsing (split on `,`, trim, drop empties);
  - the lenient tag parsing of the edit page (split, trim, keep empties);
  - the newline binding of the ingredients and steps textareas;
  - the required-field gates;
  - the request bodies;
  - the "replace one field, keep the rest" record updates.

The supporting modules are `Text` (JavaScript `split`, `join` and `trim` on strings, and decimal rendering of
naturals), `Lists` (`splice(i, 1)` and `filter(x => x !== v)`) and `Wrappers` (`Option`).

Each operation is tied to a partner it is proved against:

- Normaliser and embedding are inverse: normalising a stored canonical plan gives it back, and normalising is
  idempotent.
- Error keys render to the source's strings, and the strings parse back, so distinct rules never share a key.
- The error-collecting loops fill exactly the keys a rule predicate marks as failing. That predicate holds for
  no key exactly when the plan is valid.
- Add and remove undo each other.
- Tag parsing and joining are inverse.
- Textarea split and join are inverse.
- The pager's buttons clamp.

Where a plausible reading of the page and its code differ, the model follows the code:

- Removing a recipe chip removes every copy of that id, not the first one only (`Lists.RemoveAll`).
- References are read from `_id`.
- The normaliser keeps exactly the categories the server sent.
- `updateWorkoutField` does not create a missing workout slot.
- A payload on which the code would throw a `TypeError` (a missing `meals` object, a missing `recipes` or
  `subVideos` list, a `null` entry in a recipes list) normalises to `None`. Four other throwing payloads
  cannot be expressed by the payload type `RawPlan`: a `null` category list (line 340), a `null` meal item
  (line 343), a `null` workout (lines 357-364) and a `null` sub-video (lines 364-368). The form then keeps the state the
  code would have reached when it threw: the quote is already set, and meals and workouts are set only past the
  point of failure.

## Model

| member | source | states |
|---|---|---|
| PlanTypes.SectionFromName | src/pages/DailyPlanFormPage.tsx:33-41 | a key read back as a category is that category's key |
| PlanTypes.SectionName | src/pages/DailyPlanFormPage.tsx:33-41 | the seven keys of the `meals` object, one per category (definition; `SectionNameRoundTrip` is its partner) |
| PlanTypes.SectionNameRoundTrip | src/pages/DailyPlanFormPage.tsx:33-41 | each of the seven category keys reads back as its own category, so the keys are distinct |
| PlanTypes.InitialMealsComplete | src/pages/DailyPlanFormPage.tsx:299-307 | the initial meals object holds all seven categories, each an empty list |
| PlanTypes.BlankRecords | src/pages/DailyPlanFormPage.tsx:389-406 | the appended meal item, workout (line 448) and sub-video (lines 467-470) have every field empty; the slot a field edit materialises has only a title and recipes, so it differs from an added item by lacking alternates and notes |
| PlanTypes.ApplyMealEdit | src/pages/DailyPlanFormPage.tsx:390 | the named field of the meal item takes the new value and every other field is unchanged |
| PlanTypes.ApplyWorkoutEdit | src/pages/DailyPlanFormPage.tsx:438 | the named field of the workout takes the new value and every other field is unchanged |
| PlanTypes.ApplySubVideoEdit | src/pages/DailyPlanFormPage.tsx:493-494 | the named field of the sub-video takes the new value (the yoga reference as a string) and every other field is unchanged |
| PlanTypes.UpdateSlot | src/pages/DailyPlanFormPage.tsx:386-392 | setting a field at index i edits item i, or, when i is one past the end, a new `{title: "", recipes: []}` slot; the length grows only in that case; every other item is unchanged |
| PlanTypes.FillThenSet | src/pages/DailyPlanFormPage.tsx:388-390 | materialising the empty slot and then assigning the field is the same as editing the slot |
| PlanNormalize.ScalarRefId | src/pages/DailyPlanFormPage.tsx:359-369 | a non-null object becomes its `_id`, a string stays as it is, a missing or null reference becomes `""` |
| PlanNormalize.NormalizeRefs | src/pages/DailyPlanFormPage.tsx:343-349 | it succeeds exactly when no entry is null or missing; the result keeps length and order, and entry i is the string or the object's `_id` |
| PlanNormalize.NormalizeItem | src/pages/DailyPlanFormPage.tsx:341-350 | it succeeds exactly when `recipes` is present and all its references resolve; title and notes are kept; `recipes` is mapped to ids; `alternateRecipes` is mapped the same way, or becomes `[]` when absent |
| PlanNormalize.NormalizeItems | src/pages/DailyPlanFormPage.tsx:340-351 | every item of a category is normalised, with length and order kept; it fails exactly when one item fails |
| PlanNormalize.NormalizeMeals | src/pages/DailyPlanFormPage.tsx:337-352 | the result has exactly the categories the payload sent, each normalised; it fails when `meals` is missing or one category fails |
| PlanNormalize.NormalizeSubVideo | src/pages/DailyPlanFormPage.tsx:364-370 | the yoga reference becomes a scalar id; title, duration and notes are kept |
| PlanNormalize.NormalizeSubVideos | src/pages/DailyPlanFormPage.tsx:364 | the sub-video count and order are kept, and each entry is normalised |
| PlanNormalize.NormalizeWorkout | src/pages/DailyPlanFormPage.tsx:357-371 | it succeeds exactly when `subVideos` is present; the full video becomes a scalar id; sub-videos are normalised; title, notes and `_id` are kept |
| PlanNormalize.NormalizeWorkoutList | src/pages/DailyPlanFormPage.tsx:356-372 | each workout is normalised, with length and order kept |
| PlanNormalize.NormalizeWorkouts | src/pages/DailyPlanFormPage.tsx:356 | a missing workouts list becomes `[]` |
| PlanNormalize.NormalizeEmbeddedIds | src/pages/DailyPlanFormPage.tsx:343-345 | a list that already holds id strings normalises to itself |
| PlanNormalize.NormalizeEmbeddedItem | src/pages/DailyPlanFormPage.tsx:341-350 | a canonical item with its `alternateRecipes` present normalises to itself |
| PlanNormalize.NormalizeEmbeddedMeals | src/pages/DailyPlanFormPage.tsx:337-352 | canonical meals, sent back as stored, normalise to themselves |
| PlanNormalize.NormalizeEmbeddedWorkouts | src/pages/DailyPlanFormPage.tsx:356-372 | canonical workouts, sent back as stored, normalise to themselves |
| PlanNormalize.NormalizeMealsIdempotent | src/pages/DailyPlanFormPage.tsx:337-352 | normalising an already normalised payload changes nothing |
| PlanEditor.Initial | src/pages/DailyPlanFormPage.tsx:295-314 | the day comes from the route (default 1); the quote is empty; all seven categories and the workouts are empty; there are no errors; the picker is closed; `isAdding` is false |
| PlanEditor.UpdateMealItem | src/pages/DailyPlanFormPage.tsx:380-393 | only item i of that category changes, and only in the named field; a one-past-the-end slot is materialised first; all other categories and the rest of the state are unchanged |
| PlanEditor.UpdateMealItemMeals | src/pages/DailyPlanFormPage.tsx:386-392 | the new state differs from the old only in the edited category, which is the slot update |
| PlanEditor.AddMealItem | src/pages/DailyPlanFormPage.tsx:395-412 | it is a no-op while `isAdding` is set; otherwise it appends exactly one blank item (empty title, recipes, alternates and notes) to that category, leaves the rest unchanged, and sets `isAdding` |
| PlanEditor.RemoveMealItem | src/pages/DailyPlanFormPage.tsx:414-420 | the category loses exactly the item at the index (splice) and nothing else changes |
| PlanEditor.AddRecipeToMeal | src/pages/DailyPlanFormPage.tsx:422-428 | with no picker target, or a target that no longer exists (reading its recipes throws before anything is set), it does nothing and the picker stays as it was; otherwise it appends the recipe's id to the target item's recipes, even when already present, keeps everything else, and closes the picker |
| PlanEditor.RemoveRecipeChip | src/pages/DailyPlanFormPage.tsx:697-701 | the item's recipes lose every copy of the id, and nothing else changes |
| PlanEditor.UpdateWorkoutField | src/pages/DailyPlanFormPage.tsx:431-441 | only the named field of workout w changes; the other workouts and the rest of the state are unchanged |
| PlanEditor.AddWorkout | src/pages/DailyPlanFormPage.tsx:443-451 | it is a no-op while `isAdding` is set; otherwise it appends exactly one blank workout and sets `isAdding` |
| PlanEditor.RemoveWorkout | src/pages/DailyPlanFormPage.tsx:453-459 | the workouts lose exactly the entry at the index (splice) and nothing else changes |
| PlanEditor.AddSubVideo | src/pages/DailyPlanFormPage.tsx:461-475 | it is a no-op while `isAdding` is set; otherwise it appends exactly one blank sub-video to workout w, leaves the other workouts unchanged, and sets `isAdding` |
| PlanEditor.RemoveSubVideo | src/pages/DailyPlanFormPage.tsx:477-483 | workout w loses exactly the sub-video at the index, and nothing else changes |
| PlanEditor.UpdateSubVideoField | src/pages/DailyPlanFormPage.tsx:485-497 | only the named field of sub-video v of workout w changes; the other sub-videos, the other fields of that workout, and the other workouts are unchanged |
| PlanEditor.Tick | src/pages/DailyPlanFormPage.tsx:409 | the timer clears `isAdding` and changes nothing else |
| PlanEditor.Hydrate | src/pages/DailyPlanFormPage.tsx:333-373 | the quote is set (default `""`); the meals are replaced by the normalised meals when normalisation succeeds; the workouts are replaced only after that; nothing else changes |
| PlanEditor.FindRecipe | src/pages/DailyPlanFormPage.tsx:199 | it is `None` exactly when no option has the id; otherwise it is the first option with that id |
| PlanEditor.PickerChoice | src/pages/DailyPlanFormPage.tsx:197-200 | an empty selection adds nothing; otherwise the choice is the option found by id |
| PlanEditor.SharedDebounce | src/pages/DailyPlanFormPage.tsx:395-412 | after one add, every add of any kind is ignored until the tick, and after it the same add appends again |
| PlanEditor.AddThenRemoveMealItem | src/pages/DailyPlanFormPage.tsx:395-420 | removing the item just appended restores the meals |
| PlanEditor.AddThenRemoveWorkout | src/pages/DailyPlanFormPage.tsx:443-459 | removing the workout just appended restores the workouts |
| PlanEditor.AddThenRemoveSubVideo | src/pages/DailyPlanFormPage.tsx:461-483 | removing the sub-video just appended restores the workouts |
| PlanEditor.RemoveOutOfRange | src/pages/DailyPlanFormPage.tsx:414-420 | an index at or past the end leaves the state unchanged, so repeating it is harmless |
| PlanEditor.PickThenRemoveChip | src/pages/DailyPlanFormPage.tsx:422-428 | picking a recipe and then removing its chip leaves the recipes with no copy of it; this equals the old list exactly when the id was not there before |
| PlanEditor.NewMealItemNeedsTitle | src/pages/DailyPlanFormPage.tsx:395-412 | a newly added meal item fails exactly the title rule at its own key, and no other rule changes |
| PlanEditor.NewWorkoutNeedsTitle | src/pages/DailyPlanFormPage.tsx:443-451 | a newly added workout fails exactly the title rule at its own key, and no other rule changes |
| PlanEditor.NewSubVideoNeedsTitleAndYoga | src/pages/DailyPlanFormPage.tsx:461-475 | a newly added sub-video fails exactly its title and yoga rules, and no other rule changes |
| PlanEditor.FreshFormFailures | src/pages/DailyPlanFormPage.tsx:295-314 | a fresh form fails exactly the quote rule, plus the day rule when the route's day is below 1 |
| PlanEditor.HydrateStoredPlan | src/pages/DailyPlanFormPage.tsx:333-373 | loading a plan the server stored as submitted shows that plan again |
| PlanEditor.HydrateEmbeddedVideo | src/pages/DailyPlanFormPage.tsx:359-363 | an embedded full-video object shows as its `_id` after loading |
| PlanValidate.RenderIsJoin | src/pages/DailyPlanFormPage.tsx:509-526 | every key string is its parts joined by `-` |
| PlanValidate.Render | src/pages/DailyPlanFormPage.tsx:509-526 | the error-map key strings of the template literals (definition; `ParseRender` and `RenderInjective` are its partners) |
| PlanValidate.Message | src/pages/DailyPlanFormPage.tsx:502-527 | the error message of each rule (definition; `CollectErrors` states that every key carries it) |
| PlanValidate.Fails | src/pages/DailyPlanFormPage.tsx:502-527 | rule by rule, the condition under which the validator writes each key: day below 1, blank quote, blank meal title, blank recipe id, blank workout title, blank sub-video title or yoga reference; the alternates, notes, duration and full video are never checked (the reference definition the loops are proved against) |
| PlanValidate.PlanValid | src/pages/DailyPlanFormPage.tsx:500-533 | field by field, what a plan passing validation looks like (an independent definition; `ValidIffNoFailure` ties it to `Fails`) |
| PlanValidate.ParsePartsOfKey | src/pages/DailyPlanFormPage.tsx:509-526 | a key's parts read back as that key |
| PlanValidate.ParseRender | src/pages/DailyPlanFormPage.tsx:509-526 | every rendered key string parses back to its key |
| PlanValidate.RenderInjective | src/pages/DailyPlanFormPage.tsx:501-529 | two rules that render to the same string are the same rule, so no error overwrites another in the map |
| PlanValidate.ValidIffNoFailure | src/pages/DailyPlanFormPage.tsx:500-533 | a plan is valid exactly when no rule fails |
| PlanValidate.ValidMeansRuleHolds | src/pages/DailyPlanFormPage.tsx:500-533 | each rule holds on a valid plan |
| PlanValidate.NoFailureMeansValid | src/pages/DailyPlanFormPage.tsx:500-533 | a plan on which no rule fails is valid |
| PlanValidate.RetitleMealItem | src/pages/DailyPlanFormPage.tsx:508-509 | retitling a meal item decides its title rule alone (it fails exactly when the title is blank), and every other rule is unchanged |
| PlanValidate.ItemRulesAreRules | src/pages/DailyPlanFormPage.tsx:507-515 | the per-item rules over all recipes are exactly the failing meal keys of that item |
| PlanValidate.ItemRuleStep | src/pages/DailyPlanFormPage.tsx:510-514 | one more recipe adds at most its own key |
| PlanValidate.ItemErrors | src/pages/DailyPlanFormPage.tsx:507-515 | the loop collects exactly the failing keys of one meal item, each with the source's message |
| PlanValidate.SectionErrors | src/pages/DailyPlanFormPage.tsx:506-515 | the loop collects exactly the failing keys of one category |
| PlanValidate.MealErrors | src/pages/DailyPlanFormPage.tsx:505-516 | the loop collects exactly the failing meal keys of the plan |
| PlanValidate.WorkoutRuleStep | src/pages/DailyPlanFormPage.tsx:521-528 | one more sub-video adds at most its own two keys |
| PlanValidate.WorkoutRulesAreRules | src/pages/DailyPlanFormPage.tsx:519-528 | the per-workout rules are exactly the failing workout keys of that workout |
| PlanValidate.WorkoutErrors | src/pages/DailyPlanFormPage.tsx:519-528 | the loop collects exactly the failing keys of one workout |
| PlanValidate.WorkoutsErrors | src/pages/DailyPlanFormPage.tsx:518-529 | the loop collects exactly the failing workout keys |
| PlanValidate.CollectErrors | src/pages/DailyPlanFormPage.tsx:500-530 | a key is in the map exactly when its rule fails, with the source's message |
| PlanValidate.NoErrorsIffValid | src/pages/DailyPlanFormPage.tsx:531-532 | the map is empty exactly when the plan is valid |
| PlanSubmit.Endpoint | src/pages/DailyPlanFormPage.tsx:539-540 | both endpoints start with `/dailyPlan`, and only add mode uses the bare collection |
| PlanSubmit.SubmitRequest | src/pages/DailyPlanFormPage.tsx:535-546 | there is no request exactly when validation fails; otherwise there is one request: PUT in edit mode, POST in add mode, to the mode's endpoint, with the whole plan as body |
| PlanSubmit.EditPathNamesDay | src/pages/DailyPlanFormPage.tsx:540 | the edit path's segments are the collection and the decimal day, which reads back as the day |
| PlanSubmit.EditEndpointInjective | src/pages/DailyPlanFormPage.tsx:540 | distinct valid days are written to distinct resources |
| PlanForm.DailyPlanForm.constructor | src/pages/DailyPlanFormPage.tsx:295-314 | the new form is the initial state |
| PlanForm.DailyPlanForm.SetDay | src/pages/DailyPlanFormPage.tsx:591 | only the day changes, to the already parsed value; the empty-input default and the edit-mode reload are under Left out |
| PlanForm.DailyPlanForm.SetQuote | src/pages/DailyPlanFormPage.tsx:602 | only the quote changes |
| PlanForm.DailyPlanForm.UpdateMealItem | src/pages/DailyPlanFormPage.tsx:380-393 | the fields become `PlanEditor.UpdateMealItem` of the old state |
| PlanForm.DailyPlanForm.AddMealItem | src/pages/DailyPlanFormPage.tsx:395-412 | the fields become `PlanEditor.AddMealItem` of the old state |
| PlanForm.DailyPlanForm.RemoveMealItem | src/pages/DailyPlanFormPage.tsx:414-420 | the fields become `PlanEditor.RemoveMealItem` of the old state |
| PlanForm.DailyPlanForm.OpenPicker | src/pages/DailyPlanFormPage.tsx:753 | only the picker target changes, and it names an existing item |
| PlanForm.DailyPlanForm.ClosePicker | src/pages/DailyPlanFormPage.tsx:977 | only the picker closes |
| PlanForm.DailyPlanForm.AddRecipeToMeal | src/pages/DailyPlanFormPage.tsx:422-428 | the fields become `PlanEditor.AddRecipeToMeal` of the old state, a dangling target included, and `threw` holds exactly when an open picker's target no longer exists (the read at line 425 throws) |
| PlanForm.DailyPlanForm.RemoveRecipeChip | src/pages/DailyPlanFormPage.tsx:697-701 | the fields become `PlanEditor.RemoveRecipeChip` of the old state |
| PlanForm.DailyPlanForm.UpdateWorkoutField | src/pages/DailyPlanFormPage.tsx:431-441 | the fields become `PlanEditor.UpdateWorkoutField` of the old state |
| PlanForm.DailyPlanForm.AddWorkout | src/pages/DailyPlanFormPage.tsx:443-451 | the fields become `PlanEditor.AddWorkout` of the old state |
| PlanForm.DailyPlanForm.RemoveWorkout | src/pages/DailyPlanFormPage.tsx:453-459 | the fields become `PlanEditor.RemoveWorkout` of the old state |
| PlanForm.DailyPlanForm.AddSubVideo | src/pages/DailyPlanFormPage.tsx:461-475 | the fields become `PlanEditor.AddSubVideo` of the old state |
| PlanForm.DailyPlanForm.RemoveSubVideo | src/pages/DailyPlanFormPage.tsx:477-483 | the fields become `PlanEditor.RemoveSubVideo` of the old state |
| PlanForm.DailyPlanForm.UpdateSubVideoField | src/pages/DailyPlanFormPage.tsx:485-497 | the fields become `PlanEditor.UpdateSubVideoField` of the old state |
| PlanForm.DailyPlanForm.Tick | src/pages/DailyPlanFormPage.tsx:409 | the fields become `PlanEditor.Tick` of the old state |
| PlanForm.DailyPlanForm.Hydrate | src/pages/DailyPlanFormPage.tsx:333-373 | the fields become `PlanEditor.Hydrate` of the old state |
| PlanForm.DailyPlanForm.Validate | src/pages/DailyPlanFormPage.tsx:500-533 | only `errors` changes; it holds exactly the failing rules with their messages; the result is true exactly when the plan is valid |
| PlanForm.DailyPlanForm.HandleSubmit | src/pages/DailyPlanFormPage.tsx:535-548 | the errors are refreshed, and the request is the submit decision for the current plan and its validity |
| PlanForm.RecipePicker.constructor | src/pages/DailyPlanFormPage.tsx:196 | the picker starts with no selection |
| PlanForm.RecipePicker.Select | src/pages/DailyPlanFormPage.tsx:258 | the selection becomes the chosen id |
| PlanForm.RecipePicker.Choice | src/pages/DailyPlanFormPage.tsx:198-199 | an empty selection hands over nothing; otherwise the first option with the selected id, if any; the picker is unchanged |
| PlanForm.RecipePicker.Clear | src/pages/DailyPlanFormPage.tsx:201 | the selection becomes empty |
| PlanForm.PickerAdd | src/pages/DailyPlanFormPage.tsx:197-202 | the form becomes `PlanEditor.AddRecipeToMeal` with the picked recipe exactly when the picker finds one, and is unchanged otherwise; the selection is cleared, except when `onAdd` throws on a target that no longer exists, where line 201 never runs and the selection is kept |
| PlanForm.LateLoadKeepsSelection | src/pages/DailyPlanFormPage.tsx:197-202 | edit mode, an added breakfast item, the picker opened on it, then a loaded plan with no breakfast items: Add leaves the picker open on the old target and keeps "r1" selected |
| PlanForm.AddTwiceInOneTick | src/pages/DailyPlanFormPage.tsx:395-412 | two clicks before the timer fires add one item |
| PlanForm.DayFiveValid | src/pages/DailyPlanFormPage.tsx:500-533 | the example plan for day 5 passes validation |
| PlanForm.StartDayFive | src/pages/DailyPlanFormPage.tsx:591-602 | typing day 5 and a quote into a fresh form and adding a titled breakfast item gives that state |
| PlanForm.AddOats | src/pages/DailyPlanFormPage.tsx:395-412 | adding and titling a breakfast item changes only the meals |
| PlanForm.ChooseR1 | src/pages/DailyPlanFormPage.tsx:197-202 | selecting recipe r1 and pressing Add is `AddRecipeToMeal` with r1 |
| PlanForm.OatsWithR1 | src/pages/DailyPlanFormPage.tsx:422-428 | picking r1 for the oats item gives the example plan's meals |
| PlanForm.PickR1 | src/pages/DailyPlanFormPage.tsx:753 | opening the picker on the oats item and picking r1 gives the example plan |
| PlanForm.CreateDayFive | src/pages/DailyPlanFormPage.tsx:535-548 | the whole add-mode session ends in one POST of the example plan to `/dailyPlan` |
| PlanList.CeilDiv | src/pages/DailyPlanListPage.tsx:26 | for a positive count, the pages before the last hold fewer plans than the count and all the pages hold at least the count; a count of zero gives zero pages |
| PlanList.PreviousPage | src/pages/DailyPlanListPage.tsx:78 | the result is at least 1 and at least p - 1, and it is one of the two |
| PlanList.NextPage | src/pages/DailyPlanListPage.tsx:84 | the result is at most the page count and at most p + 1, and it is one of the two |
| PlanList.PagesCoverCount | src/pages/DailyPlanListPage.tsx:16-26 | every page up to the count starts before the last plan, and the pages hold every plan |
| PlanList.ClampsAtEnds | src/pages/DailyPlanListPage.tsx:78-84 | Previous on page 1 and Next on the last page change nothing |
| PlanList.NextThenPrevious | src/pages/DailyPlanListPage.tsx:78-84 | inside the range, Previous undoes Next and Next undoes Previous |
| PlanList.Pager.constructor | src/pages/DailyPlanListPage.tsx:15-17 | page and page count both start at 1 |
| PlanList.Pager.ApplyTotalCount | src/pages/DailyPlanListPage.tsx:26 | a non-zero count sets the page count to its ceiling division by 10; a missing or zero count keeps the old one; the page is unchanged |
| PlanList.Pager.Previous | src/pages/DailyPlanListPage.tsx:78 | the page becomes `max(page - 1, 1)`, so it stays at least 1 and never increases |
| PlanList.Pager.Next | src/pages/DailyPlanListPage.tsx:84 | the page becomes `min(page + 1, totalPages)`, so it never exceeds the page count |
| PlanList.Pager.PreviousDisabled | src/pages/DailyPlanListPage.tsx:78 | the Previous button is disabled exactly when pressing it would leave the page unchanged |
| PlanList.Pager.NextDisabled | src/pages/DailyPlanListPage.tsx:84 | the Next button is disabled exactly when pressing it would leave the page unchanged |
| RecipeForms.TrimEach | src/pages/RecipesPage.tsx:64 | each piece is trimmed, with length and order kept |
| RecipeForms.ParseTags | src/pages/RecipesPage.tsx:64 | every parsed tag is non-empty, trimmed and comma-free; an empty input gives no tags |
| RecipeForms.ParseTagsConcat | src/pages/AddRecipePage.tsx:30 | the tags of `a,b` are the tags of `a` followed by those of `b`, so input order is kept |
| RecipeForms.ParseTagsJoin | src/pages/RecipesPage.tsx:64 | comma-joining parsed-style tags and parsing again gives the same list |
| RecipeForms.ParseTagsStable | src/pages/RecipesPage.tsx:64 | parsing the comma-join of parsed tags returns them unchanged |
| RecipeForms.LenientTags | src/pages/EditRecipePage.tsx:46 | there is always one more tag than commas; every tag is trimmed and comma-free; `""` gives `[""]` |
| RecipeForms.LenientDisplayRoundTrip | src/pages/EditRecipePage.tsx:46 | a non-empty list of trimmed, comma-free tags, shown with `join(", ")` and typed back, parses to the same list; the empty list does not round-trip, because it shows as `""`, which parses as `[""]` |
| RecipeForms.LenientTagsStable | src/pages/EditRecipePage.tsx:46 | a value re-parsed from its own display does not change |
| RecipeForms.ClearedTextarea | src/pages/RecipesPage.tsx:182-183 | the empty list and a cleared textarea display the same, but clearing stores `[""]`, not `[]` |
| RecipeForms.ApplyInput | src/pages/RecipesPage.tsx:134-189 | a textarea input stores its lines; every other field keeps both its display and its value |
| RecipeForms.DraftView | src/pages/RecipesPage.tsx:134-188 | what each input of the list page's form shows: the text fields as held, and the ingredients and steps joined by newlines (definition) |
| RecipeForms.InputShowsText | src/pages/RecipesPage.tsx:182-189 | after an input the field displays exactly the typed text |
| RecipeForms.BodyOf | src/pages/AddRecipePage.tsx:25-35 | the body carries every field as held, except that the tags are parsed |
| RecipeForms.ListPageRequest | src/pages/RecipesPage.tsx:51-69 | a POST to `/recipes` happens exactly when title, description, prep and cook time are non-empty and there are ingredient and step lines |
| RecipeForms.AddPageRequestAsWritten | src/pages/AddRecipePage.tsx:16-35 | the add page posts exactly when title and description are non-empty, to the path its URL constant spells |
| RecipeForms.AddPageMissesCollection | src/pages/AddRecipePage.tsx:16 | every recipe the list page would create goes to a different path from the add page, namely `/recipes"` |
| RecipeForms.AddPageRequest | src/pages/AddRecipePage.tsx:19-35 | it posts to `/recipes` exactly when title and description are non-empty |
| RecipeForms.ListGateImpliesAddGate | src/pages/AddRecipePage.tsx:19 | whatever the list page accepts the add page accepts with the same request, but not the other way round |
| RecipeForms.RecipesPageForm.constructor | src/pages/RecipesPage.tsx:19-27 | the form starts empty |
| RecipeForms.RecipesPageForm.Input | src/pages/RecipesPage.tsx:134-189 | the draft becomes the input applied to it |
| RecipeForms.RecipesPageForm.ResetForm | src/pages/RecipesPage.tsx:81-91 | all nine fields return to their initial empty values |
| RecipeForms.RecipesPageForm.AddRecipe | src/pages/RecipesPage.tsx:50-78 | the request is the gate's decision; the form resets only when a request was sent and succeeded |
| RecipeForms.EditRecipeRequest | src/pages/RecipesPage.tsx:94-107 | there is no PUT exactly when the new title is empty or cancelled; otherwise the body is the record with only title and description replaced (a cancelled description becomes `""`) |
| RecipeForms.RecordInput | src/pages/EditRecipePage.tsx:42-50 | exactly the edited field changes; tags are stored leniently parsed and the textareas as lines |
| RecipeForms.RecordView | src/pages/EditRecipePage.tsx:42-50 | what each input of the edit page shows: a missing text field as `""`, the tags joined by `", "`, and the lists joined by newlines, a missing list as empty (definition) |
| RecipeForms.RecordInputShows | src/pages/EditRecipePage.tsx:42-50 | each field displays what was typed; the tag box displays a text whose lenient parse is the stored tags |
| RecipeForms.MissingFieldShowsEmpty | src/pages/EditRecipePage.tsx:42-50 | a field missing from the loaded record displays as empty |
| RecipeForms.TagBoxReformats | src/pages/EditRecipePage.tsx:46 | typing `a,b` into the tag box redisplays it as `a, b` |
| RecipeForms.UpdateRequest | src/pages/EditRecipePage.tsx:24-30 | the PUT goes to `/recipes/<route id>` with the whole current record as body, unchanged |
| Text.TrimSpec | src/pages/RecipesPage.tsx:64 | the trim of a string is a window of it that has whitespace on both sides and no whitespace at its ends |
| Text.Trim | src/pages/RecipesPage.tsx:64 | `trim()`: drop leading, then trailing whitespace (definition; `TrimSpec`, `TrimIdempotent` and `BlankIffAllSpace` are its properties) |
| Text.Join | src/pages/RecipesPage.tsx:182 | `Array.prototype.join`: the parts with the separator between each pair, `""` for no parts (definition; `JoinSplit` and `SplitJoin` are its partners) |
| Text.BlankIffAllSpace | src/pages/DailyPlanFormPage.tsx:503 | a string is blank after trim exactly when all its characters are whitespace |
| Text.TrimIdempotent | src/pages/RecipesPage.tsx:64 | trimming twice is trimming once |
| Text.Split | src/pages/RecipesPage.tsx:183 | there is one more piece than separators, and no piece holds the separator |
| Text.JoinSplit | src/pages/RecipesPage.tsx:182-183 | joining the split text with its separator gives the typed text back |
| Text.SplitJoin | src/pages/EditRecipePage.tsx:49-50 | splitting the join of at least one separator-free line gives the lines back; the empty list does not round-trip, because it joins to `""`, which splits to `[""]` |
| Text.ParseNatToString | src/pages/DailyPlanFormPage.tsx:509 | a rendered index reads back as the same number |
| Text.IntToString | src/pages/DailyPlanFormPage.tsx:540 | the decimal rendering of the day in the edit endpoint, with a leading `-` for a negative day (definition) |
| Lists.RemoveAt | src/pages/DailyPlanFormPage.tsx:417 | `splice(i, 1)` drops exactly element i and keeps the others in order; an index at or past the end leaves the list unchanged |
| Lists.RemoveAll | src/pages/DailyPlanFormPage.tsx:698-700 | `filter(x => x !== rid)`: every element except the copies of the id, in order (definition; `RemoveAllSpec`, `RemoveAllConcat` and `RemoveAllAbsent` are its properties) |
| Lists.RemoveAtMultiset | src/pages/DailyPlanFormPage.tsx:417 | the removed element and the rest together are the original elements |
| Lists.RemoveAllSpec | src/pages/DailyPlanFormPage.tsx:698-700 | the filter leaves no copy of the id; every other id keeps its count; the length drops by the number of copies |
| Lists.RemoveAllConcat | src/pages/DailyPlanFormPage.tsx:698-700 | the filter works piecewise, so the kept ids stay in order |

## Left out

- HTTP and browser effects are not modelled:
  - the `fetch` calls, the JSON decoding and the base URL from the environment;
  - `navigate`, `alert`, `prompt` and `console`;
  - the recipe and yoga lists the form loads for its pickers, and the recipe-list refresh after a save.
- Submission is a returned request description (method, path below the base URL, body). The list page's
  `page`/`limit` query string belongs to the fetch and is not modelled.
- Hydration is modelled as the reaction to one plan payload. The effect's own guard (edit mode and a truthy
  day) and the fetch that produces the payload are I/O. `PlanForm.DailyPlanForm.Hydrate` applies whatever
  payload it is given.
- The 50 ms `setTimeout` that clears `isAdding` is the explicit `Tick` method, so timer scheduling is not
  modelled.
- React's state batching and updater double invocation are not modelled. The shallow copies whose inner arrays
  are mutated in place are modelled by their resulting values, so aliasing between renders is not captured.
- The day is an `int`. `parseInt` on non-numeric text (NaN) is not modelled.
- Field values typed `any` are modelled by their typed edits (`MealEdit`, `WorkoutEdit`, `SubVideoEdit`). The
  `String()` coercion of the yoga reference holds trivially, because the value is already a string.
- PlanEditor.UpdateMealItem: requires the index to be at most the category's length. An index further out
  would leave a sparse array with holes, which the model does not represent.
- PlanEditor.UpdateWorkoutField and PlanEditor.UpdateSubVideoField: require an existing slot, because the
  code throws a `TypeError` for a missing one.
- PlanEditor.AddSubVideo: requires an existing workout when not debounced, for the same reason.
- PlanEditor.AddMealItem: requires the category to be present unless debounced, and PlanEditor.UpdateMealItem
  requires it too. The code throws a `TypeError` for a missing one; the categories render from
  `Object.keys(meals)` (line 614), so every call site passes a present one.
- PlanEditor.RemoveMealItem: requires the category to be present. The code throws a `TypeError` for a
  missing one; every call site (lines 614-640 and 763) passes a category the form renders, so it is present.
- PlanEditor.RemoveSubVideo: requires an existing workout, for the same reason. The only call site (line 899)
  is inside the loop over the workouts.
- PlanForm.DailyPlanForm.SetDay: takes the already parsed day. The model does not capture two things about
  the day input. First, `parseInt(e.target.value || "1")` turns an empty input into day 1 (line 591).
  Second, in edit mode the loading effect depends on the day (lines 328-378), so each day change fetches
  `/dailyPlan/<new day>`. When that day has a plan, it replaces the quote, meals and workouts being
  edited. The model leaves it to a caller to apply `Hydrate` with that day's payload.
- RecipeForms.EditRecipeRequest: follows `RecipesPage.tsx`'s own `Recipe` type, whose key is `id` (lines 5, 100
  and 199). The other readers of the same `/recipes` collection use `_id` (`RecipesListPage.tsx:6` and 57,
  `DailyPlanFormPage.tsx:199`). If the server sends only `_id`, `recipe.id` is undefined and the PUT goes to
  `/recipes/undefined`. The server's payload is not part of this model, so this possible mismatch is
  recorded here and not modelled.
- `splice` with a negative index is not modelled: indices come from list positions and are natural numbers.
- Meal keys outside the seven categories are not modelled, because the document's type allows only those
  seven.
- Validation errors are a datatype of keys with a rendering to the source's strings, not a map from arbitrary
  strings. `PlanValidate.RenderInjective` is what makes this faithful.
- JavaScript `trim`'s whitespace set is approximated by a fixed set of characters (`Text.IsSpace`). The other
  Unicode space separators are not included.
- `Math.ceil` over floating-point division is modelled as integer ceiling division.
- Not part of this model:
  - rendering, styles and JSX;
  - the standalone `RecipePicker.tsx`;
  - `AddDailyPlanPage.tsx` and `EditDailyPlanPage.tsx`, which nothing routes to;
  - the yoga pages and the recipe and yoga list pages;
  - routing in `App.js`.

## Findings

| source | as written | input that shows it | evidently intended | confidence | as-written member | corrected member |
|---|---|---|---|---|---|---|
| src/pages/AddRecipePage.tsx:16 | the recipe URL constant ends in `/recipes"` with a stray double quote, so the add page posts to a path that is not the recipes collection | any draft with a title and a description, e.g. title `t`, description `d` | post to `/recipes`, as the list and edit pages do | high (not executed) | RecipeForms.AddPageRequestAsWritten | RecipeForms.AddPageRequest |
