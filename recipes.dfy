/** The recipe forms: comma-separated tag parsing, the one-per-line textareas, the
    required-field gates, the request bodies, and the one-field record updates of the
    edit page. */
module RecipeForms {
  import opened Wrappers
  import opened Text
  import opened Lists

  // ---------------------------------------------------------------- tags

  /** `.map(t => t.trim())`. */
  function TrimEach(parts: seq<string>): (r: seq<string>)
    ensures |r| == |parts| && forall i :: 0 <= i < |parts| ==> r[i] == Trim(parts[i])
  {
    if parts == [] then [] else [Trim(parts[0])] + TrimEach(parts[1..])
  }

  lemma TrimEachConcat(a: seq<string>, b: seq<string>)
    ensures TrimEach(a + b) == TrimEach(a) + TrimEach(b)
  {
  }

  /** Trimmed entries of comma-free pieces are trimmed and comma-free. */
  lemma TrimEachClean(parts: seq<string>)
    requires forall i :: 0 <= i < |parts| ==> ',' !in parts[i]
    ensures forall i :: 0 <= i < |parts| ==> Trimmed(TrimEach(parts)[i]) && ',' !in TrimEach(parts)[i]
  {
    forall i | 0 <= i < |parts|
      ensures Trimmed(TrimEach(parts)[i]) && ',' !in TrimEach(parts)[i]
    {
      TrimSpec(parts[i]);
      TrimChars(parts[i]);
    }
  }

  /** `tags.split(",").map(t => t.trim()).filter(t => t)`, as both add forms send it. */
  function ParseTags(s: string): (tags: seq<string>)
    ensures forall i :: 0 <= i < |tags| ==> tags[i] != [] && Trimmed(tags[i]) && ',' !in tags[i]
    ensures s == [] ==> tags == []
  {
    var trimmed := TrimEach(Split(s, ','));
    TrimEachClean(Split(s, ','));
    RemoveAllKeeps(trimmed, []);
    var tags := RemoveAll(trimmed, []);
    forall i | 0 <= i < |tags| ensures tags[i] != [] && Trimmed(tags[i]) && ',' !in tags[i] {
      assert tags[i] in tags;
    }
    if s == [] then
      assert trimmed == [[]] && trimmed[0] == [] && trimmed[1..] == [];
      assert tags == [] + RemoveAll(trimmed[1..], []);
      tags
    else tags
  }

  /** Tags keep their input order: the tags of `a,b` are those of `a` followed by those
      of `b`. */
  lemma ParseTagsConcat(a: string, b: string)
    ensures ParseTags(a + [','] + b) == ParseTags(a) + ParseTags(b)
  {
    SplitAround(a, b, ',');
    TrimEachConcat(Split(a, ','), Split(b, ','));
    RemoveAllConcat(TrimEach(Split(a, ',')), TrimEach(Split(b, ',')), []);
  }

  /** A list of clean tags survives being written out comma-separated and parsed. */
  lemma ParseTagsJoin(tags: seq<string>)
    requires forall i :: 0 <= i < |tags| ==> tags[i] != [] && Trimmed(tags[i]) && ',' !in tags[i]
    ensures ParseTags(Join(tags, ",")) == tags
  {
    if tags == [] {
      assert ParseTags([]) == [];
    } else {
      SplitJoin(tags, ',');
      TrimEachOfTrimmed(tags);
      assert [] !in tags;
      RemoveAllAbsent(tags, []);
    }
  }

  /** Trimming entries that are already trimmed changes none of them. */
  lemma TrimEachOfTrimmed(tags: seq<string>)
    requires forall i :: 0 <= i < |tags| ==> Trimmed(tags[i])
    ensures TrimEach(tags) == tags
  {
    forall i | 0 <= i < |tags| ensures Trim(tags[i]) == tags[i] {
      TrimOfTrimmed(tags[i]);
    }
  }

  /** Parsing the comma-join of parsed tags gives the same tags. */
  lemma ParseTagsStable(s: string)
    ensures ParseTags(Join(ParseTags(s), ",")) == ParseTags(s)
  {
    ParseTagsJoin(ParseTags(s));
  }

  /** The edit page's `e.target.value.split(",").map(t => t.trim())`: empty entries stay. */
  function LenientTags(s: string): (tags: seq<string>)
    ensures |tags| == Count(s, ',') + 1
    ensures forall i :: 0 <= i < |tags| ==> Trimmed(tags[i]) && ',' !in tags[i]
    ensures s == [] ==> tags == [[]]
  {
    TrimEachClean(Split(s, ','));
    TrimEach(Split(s, ','))
  }

  /** Each tag after the first written with the `", "` separator's space in front. */
  function Spaced(ts: seq<string>): (r: seq<string>)
    ensures |r| == |ts| && forall i :: 0 <= i < |ts| ==> r[i] == " " + ts[i]
  {
    if ts == [] then [] else [" " + ts[0]] + Spaced(ts[1..])
  }

  lemma JoinPrefix(x: string, ps: seq<string>, sep: string)
    requires |ps| >= 1
    ensures x + Join(ps, sep) == Join([x + ps[0]] + ps[1..], sep)
  {
    if |ps| > 1 {
      JoinCons(ps[0], ps[1..], sep);
      JoinCons(x + ps[0], ps[1..], sep);
      assert ps == [ps[0]] + ps[1..];
    }
  }

  /** Joining with `", "` is joining with `","` after a space goes in front of every tag
      but the first. */
  lemma {:induction false} JoinCommaSpace(t: string, rest: seq<string>)
    ensures Join([t] + rest, ", ") == Join([t] + Spaced(rest), ",")
    decreases rest
  {
    if rest != [] {
      JoinCommaSpace(rest[0], rest[1..]);
      assert [rest[0]] + rest[1..] == rest;
      JoinCons(t, rest, ", ");
      JoinCons(t, Spaced(rest), ",");
      assert Spaced(rest) == [" " + rest[0]] + Spaced(rest[1..]);
      JoinPrefix(" ", [rest[0]] + Spaced(rest[1..]), ",");
      assert ([rest[0]] + Spaced(rest[1..]))[1..] == Spaced(rest[1..]);
    }
  }

  /** The pieces of a `", "`-joined list of trimmed tags trim back to the tags. */
  lemma TrimSpaced(tags: seq<string>)
    requires |tags| >= 1
    requires forall i :: 0 <= i < |tags| ==> Trimmed(tags[i]) && ',' !in tags[i]
    ensures forall i :: 0 <= i < |tags| ==> ',' !in ([tags[0]] + Spaced(tags[1..]))[i]
    ensures TrimEach([tags[0]] + Spaced(tags[1..])) == tags
  {
    var parts := [tags[0]] + Spaced(tags[1..]);
    forall i | 0 <= i < |tags| ensures ',' !in parts[i] && Trim(parts[i]) == tags[i] {
      TrimOfTrimmed(tags[i]);
      if i > 0 {
        assert parts[i] == [' '] + tags[i];
        TrimAfterSpace(' ', tags[i]);
      }
    }
  }

  /** The `", "`-join of the tags is the `","`-join of the spaced pieces. */
  lemma CommaSpaceJoin(tags: seq<string>)
    requires |tags| >= 1
    ensures Join(tags, ", ") == Join([tags[0]] + Spaced(tags[1..]), ",")
  {
    JoinCommaSpace(tags[0], tags[1..]);
    assert [tags[0]] + tags[1..] == tags;
  }

  /** The edit page shows tags with `join(", ")`; re-reading that display gives the same
      tags whenever they are trimmed, comma-free, and at least one. */
  lemma LenientDisplayRoundTrip(tags: seq<string>)
    requires |tags| >= 1
    requires forall i :: 0 <= i < |tags| ==> Trimmed(tags[i]) && ',' !in tags[i]
    ensures LenientTags(Join(tags, ", ")) == tags
  {
    var parts := [tags[0]] + Spaced(tags[1..]);
    CommaSpaceJoin(tags);
    TrimSpaced(tags);
    SplitJoin(parts, ',');
    assert Split(Join(tags, ", "), ',') == parts;
  }

  /** What the edit page's tag box shows after one edit re-reads as the same tags. */
  lemma LenientTagsStable(s: string)
    ensures LenientTags(Join(LenientTags(s), ", ")) == LenientTags(s)
  {
    LenientDisplayRoundTrip(LenientTags(s));
  }

  // ---------------------------------------------------------------- textareas

  /** An untouched list and a cleared textarea look the same, but the cleared one holds
      one empty line, so it passes an `ingredients.length === 0` check. */
  lemma ClearedTextarea()
    ensures Join([], "\n") == Join(Split("", '\n'), "\n") == ""
    ensures Split("", '\n') == [""] && |Split("", '\n')| != 0
  {
  }

  // ---------------------------------------------------------------- the add forms

  /** The nine inputs of an add form, textareas held as lists of lines. */
  datatype RecipeDraft = RecipeDraft(title: string, description: string, image: string, video: string,
                                     tags: string, prepTime: string, cookTime: string,
                                     ingredients: seq<string>, steps: seq<string>)

  const EmptyDraft := RecipeDraft("", "", "", "", "", "", "", [], [])

  /** The JSON body an add form posts. */
  datatype RecipeBody = RecipeBody(title: string, description: string, image: string, video: string,
                                   tags: seq<string>, prepTime: string, cookTime: string,
                                   ingredients: seq<string>, steps: seq<string>)

  datatype PostRequest = PostRequest(path: string, body: RecipeBody)

  /** The inputs of an add form. */
  datatype DraftField = TitleField | DescriptionField | ImageField | VideoField | TagsField
                      | PrepTimeField | CookTimeField | IngredientsField | StepsField

  /** One `onChange`: the field edited and the text now in its input. */
  datatype DraftInput = DraftInput(field: DraftField, text: string)

  /** The `value` an input shows. */
  function DraftView(d: RecipeDraft, f: DraftField): string {
    match f
    case TitleField => d.title
    case DescriptionField => d.description
    case ImageField => d.image
    case VideoField => d.video
    case TagsField => d.tags
    case PrepTimeField => d.prepTime
    case CookTimeField => d.cookTime
    case IngredientsField => Join(d.ingredients, "\n")
    case StepsField => Join(d.steps, "\n")
  }

  /** An `onChange` handler: text inputs store the text, the textareas store its lines. */
  function ApplyInput(d: RecipeDraft, e: DraftInput): (r: RecipeDraft)
    ensures e.field == IngredientsField ==> r.ingredients == Split(e.text, '\n')
    ensures e.field == StepsField ==> r.steps == Split(e.text, '\n')
    ensures forall f :: f != e.field ==> DraftView(r, f) == DraftView(d, f)
    ensures e.field != TitleField ==> r.title == d.title
    ensures e.field != DescriptionField ==> r.description == d.description
    ensures e.field != ImageField ==> r.image == d.image
    ensures e.field != VideoField ==> r.video == d.video
    ensures e.field != TagsField ==> r.tags == d.tags
    ensures e.field != PrepTimeField ==> r.prepTime == d.prepTime
    ensures e.field != CookTimeField ==> r.cookTime == d.cookTime
    ensures e.field != IngredientsField ==> r.ingredients == d.ingredients
    ensures e.field != StepsField ==> r.steps == d.steps
  {
    match e.field
    case TitleField => d.(title := e.text)
    case DescriptionField => d.(description := e.text)
    case ImageField => d.(image := e.text)
    case VideoField => d.(video := e.text)
    case TagsField => d.(tags := e.text)
    case PrepTimeField => d.(prepTime := e.text)
    case CookTimeField => d.(cookTime := e.text)
    case IngredientsField => d.(ingredients := Split(e.text, '\n'))
    case StepsField => d.(steps := Split(e.text, '\n'))
  }

  /** Every input shows exactly what was typed into it, textareas included. */
  lemma InputShowsText(d: RecipeDraft, e: DraftInput)
    ensures DraftView(ApplyInput(d, e), e.field) == e.text
  {
    JoinSplit(e.text, '\n');
  }

  /** The body both add forms build: tags parsed, every other field as held. */
  function BodyOf(d: RecipeDraft): (b: RecipeBody)
    ensures b.tags == ParseTags(d.tags)
    ensures b.title == d.title && b.description == d.description && b.image == d.image && b.video == d.video
    ensures b.prepTime == d.prepTime && b.cookTime == d.cookTime
    ensures b.ingredients == d.ingredients && b.steps == d.steps
  {
    RecipeBody(d.title, d.description, d.image, d.video, ParseTags(d.tags), d.prepTime, d.cookTime,
               d.ingredients, d.steps)
  }

  /** The recipes collection below the API base URL. */
  const RecipesPath: string := "/recipes"

  /** The list page's `addRecipe`: nothing is sent unless title, description, prep time
      and cook time are non-empty and both lists hold at least one line. */
  function ListPageRequest(d: RecipeDraft): (r: Option<PostRequest>)
    ensures r.Some? <==> d.title != [] && d.description != [] && d.prepTime != [] && d.cookTime != []
                         && |d.ingredients| != 0 && |d.steps| != 0
    ensures r.Some? ==> r.value == PostRequest(RecipesPath, BodyOf(d))
  {
    if d.title == [] || d.description == [] || d.prepTime == [] || d.cookTime == []
       || |d.ingredients| == 0 || |d.steps| == 0
    then None
    else Some(PostRequest(RecipesPath, BodyOf(d)))
  }

  /** The add page's `handleAdd` URL as written: the template literal ends in a stray
      quote, so the path is `/recipes"`. */
  const AddPagePathAsWritten: string := "/recipes\""

  function AddPageRequestAsWritten(d: RecipeDraft): (r: Option<PostRequest>)
    ensures r.Some? <==> d.title != [] && d.description != []
    ensures r.Some? ==> r.value == PostRequest(AddPagePathAsWritten, BodyOf(d))
  {
    if d.title == [] || d.description == [] then None
    else Some(PostRequest(AddPagePathAsWritten, BodyOf(d)))
  }

  /** The add page posts to a different resource than the list page for the same
      draft. */
  lemma AddPageMissesCollection(d: RecipeDraft)
    requires ListPageRequest(d).Some?
    ensures AddPageRequestAsWritten(d).Some?
    ensures AddPageRequestAsWritten(d).value.path != ListPageRequest(d).value.path
    ensures AddPageRequestAsWritten(d).value.path == RecipesPath + "\""
  {
  }

  /** The add page's `handleAdd` posting to the collection: only title and description
      are required. */
  function AddPageRequest(d: RecipeDraft): (r: Option<PostRequest>)
    ensures r.Some? <==> d.title != [] && d.description != []
    ensures r.Some? ==> r.value == PostRequest(RecipesPath, BodyOf(d))
  {
    if d.title == [] || d.description == [] then None
    else Some(PostRequest(RecipesPath, BodyOf(d)))
  }

  /** The list page's gate is the stricter one: a draft it sends, the add page sends
      identically; the converse fails for a draft with only a title and description. */
  lemma ListGateImpliesAddGate(d: RecipeDraft)
    ensures ListPageRequest(d).Some? ==> AddPageRequest(d) == ListPageRequest(d)
    ensures var t := EmptyDraft.(title := "t", description := "d");
      AddPageRequest(t).Some? && ListPageRequest(t).None?
  {
  }

  /** The list page's form: nine state fields, reset one by one after a successful post. */
  class RecipesPageForm {
    var title: string
    var description: string
    var image: string
    var video: string
    var tags: string
    var prepTime: string
    var cookTime: string
    var ingredients: seq<string>
    var steps: seq<string>

    function Draft(): RecipeDraft
      reads this
    {
      RecipeDraft(title, description, image, video, tags, prepTime, cookTime, ingredients, steps)
    }

    constructor ()
      ensures Draft() == EmptyDraft
    {
      title, description, image, video, tags := "", "", "", "", "";
      prepTime, cookTime, ingredients, steps := "", "", [], [];
    }

    /** One input's `onChange`. */
    method Input(e: DraftInput)
      modifies this
      ensures Draft() == ApplyInput(old(Draft()), e)
    {
      match e.field
      case TitleField => title := e.text;
      case DescriptionField => description := e.text;
      case ImageField => image := e.text;
      case VideoField => video := e.text;
      case TagsField => tags := e.text;
      case PrepTimeField => prepTime := e.text;
      case CookTimeField => cookTime := e.text;
      case IngredientsField => ingredients := Split(e.text, '\n');
      case StepsField => steps := Split(e.text, '\n');
    }

    /** `resetForm()`: every field back to its initial empty value. */
    method ResetForm()
      modifies this
      ensures Draft() == EmptyDraft
    {
      title := "";
      description := "";
      image := "";
      video := "";
      tags := "";
      prepTime := "";
      cookTime := "";
      ingredients := [];
      steps := [];
    }

    /** `addRecipe()`: the request it sends, if any; the form resets only when a request
        was sent and the response was ok. */
    method AddRecipe(responseOk: bool) returns (req: Option<PostRequest>)
      modifies this
      ensures req == ListPageRequest(old(Draft()))
      ensures req.Some? && responseOk ==> Draft() == EmptyDraft
      ensures req.None? || !responseOk ==> Draft() == old(Draft())
    {
      req := ListPageRequest(Draft());
      if req.Some? && responseOk {
        ResetForm();
      }
    }
  }

  // ---------------------------------------------------------------- editing on the list page

  /** A recipe as the list page holds it. */
  datatype Recipe = Recipe(id: string, title: string, description: string, image: Option<string>,
                           video: Option<string>, tags: seq<string>, prepTime: string, cookTime: string,
                           ingredients: seq<string>, steps: seq<string>)

  datatype PutRecipe = PutRecipe(path: string, body: Recipe)

  /** `editRecipe(recipe)` given the two prompts' answers (`None` for a cancelled
      prompt): no request without a non-empty title; otherwise the recipe with title
      and description replaced, a cancelled description becoming `""`. */
  function EditRecipeRequest(recipe: Recipe, newTitle: Option<string>, newDescription: Option<string>): (r: Option<PutRecipe>)
    ensures r.None? <==> newTitle.None? || newTitle.value == []
    ensures r.Some? ==> r.value.path == RecipesPath + "/" + recipe.id
    ensures r.Some? ==> r.value.body.title == newTitle.value && r.value.body.description == newDescription.GetOr("")
    ensures r.Some? ==> r.value.body.(title := recipe.title, description := recipe.description) == recipe
  {
    if newTitle.None? || newTitle.value == [] then None
    else Some(PutRecipe(RecipesPath + "/" + recipe.id,
                        recipe.(title := newTitle.value, description := newDescription.GetOr(""))))
  }

  // ---------------------------------------------------------------- the edit page

  /** The edit page's `recipe` object: any field may be missing (it starts as `{}`);
      fields it does not edit, such as `_id`, are carried along. */
  datatype RecipeRecord = RecipeRecord(id: Option<string>, title: Option<string>, description: Option<string>,
                                       image: Option<string>, video: Option<string>, tags: Option<seq<string>>,
                                       prepTime: Option<string>, cookTime: Option<string>,
                                       ingredients: Option<seq<string>>, steps: Option<seq<string>>)

  const EmptyRecord := RecipeRecord(None, None, None, None, None, None, None, None, None, None)

  /** An edited field's value: text, or a list. */
  datatype FieldValue = TextValue(s: Option<string>) | ListValue(xs: Option<seq<string>>)

  function FieldOf(r: RecipeRecord, f: DraftField): FieldValue {
    match f
    case TitleField => TextValue(r.title)
    case DescriptionField => TextValue(r.description)
    case ImageField => TextValue(r.image)
    case VideoField => TextValue(r.video)
    case TagsField => ListValue(r.tags)
    case PrepTimeField => TextValue(r.prepTime)
    case CookTimeField => TextValue(r.cookTime)
    case IngredientsField => ListValue(r.ingredients)
    case StepsField => ListValue(r.steps)
  }

  /** The `value` an input shows: `recipe.x || ""`, `(recipe.tags || []).join(", ")`,
      `(recipe.ingredients || []).join("\n")`. */
  function RecordView(r: RecipeRecord, f: DraftField): string {
    match f
    case TitleField => r.title.GetOr("")
    case DescriptionField => r.description.GetOr("")
    case ImageField => r.image.GetOr("")
    case VideoField => r.video.GetOr("")
    case TagsField => Join(r.tags.GetOr([]), ", ")
    case PrepTimeField => r.prepTime.GetOr("")
    case CookTimeField => r.cookTime.GetOr("")
    case IngredientsField => Join(r.ingredients.GetOr([]), "\n")
    case StepsField => Join(r.steps.GetOr([]), "\n")
  }

  /** `setRecipe({...recipe, x: value})`: exactly one field takes the new value. */
  function RecordInput(r: RecipeRecord, e: DraftInput): (r': RecipeRecord)
    ensures r'.id == r.id
    ensures forall f :: f != e.field ==> FieldOf(r', f) == FieldOf(r, f)
    ensures e.field == TagsField ==> r'.tags == Some(LenientTags(e.text))
    ensures e.field == IngredientsField ==> r'.ingredients == Some(Split(e.text, '\n'))
    ensures e.field == StepsField ==> r'.steps == Some(Split(e.text, '\n'))
    ensures FieldOf(r', e.field).TextValue? ==> FieldOf(r', e.field) == TextValue(Some(e.text))
  {
    match e.field
    case TitleField => r.(title := Some(e.text))
    case DescriptionField => r.(description := Some(e.text))
    case ImageField => r.(image := Some(e.text))
    case VideoField => r.(video := Some(e.text))
    case TagsField => r.(tags := Some(LenientTags(e.text)))
    case PrepTimeField => r.(prepTime := Some(e.text))
    case CookTimeField => r.(cookTime := Some(e.text))
    case IngredientsField => r.(ingredients := Some(Split(e.text, '\n')))
    case StepsField => r.(steps := Some(Split(e.text, '\n')))
  }

  /** Every input but the tag box shows exactly what was typed; the tag box shows the
      trimmed tags re-joined with `", "`, which re-reads as the same tags. */
  lemma RecordInputShows(r: RecipeRecord, e: DraftInput)
    ensures e.field != TagsField ==> RecordView(RecordInput(r, e), e.field) == e.text
    ensures e.field == TagsField ==>
      LenientTags(RecordView(RecordInput(r, e), TagsField)) == RecordInput(r, e).tags.value
  {
    JoinSplit(e.text, '\n');
    if e.field == TagsField {
      LenientTagsStable(e.text);
    }
  }

  /** A field the record lacks shows as empty, lists included. */
  lemma MissingFieldShowsEmpty(r: RecipeRecord, f: DraftField)
    requires FieldOf(r, f) == TextValue(None) || FieldOf(r, f) == ListValue(None)
    ensures RecordView(r, f) == ""
  {
  }

  /** Typing into the tag box can change what it shows: `a,b` is shown as `a, b`. */
  lemma TagBoxReformats()
    ensures RecordView(RecordInput(EmptyRecord, DraftInput(TagsField, "a,b")), TagsField) == "a, b"
  {
    var parts := Split("a,b", ',');
    assert parts == ["a", "b"] by {
      SplitAround("a", "b", ',');
      SplitWithoutSep("a", ',');
      SplitWithoutSep("b", ',');
      assert "a,b" == "a" + [','] + "b";
    }
    assert Trim("a") == "a" && Trim("b") == "b";
    JoinCons("a", ["b"], ", ");
  }

  datatype PutRecord = PutRecord(path: string, body: RecipeRecord)

  /** `handleUpdate()`: the whole current record goes to `/recipes/<id>` unchanged. */
  function UpdateRequest(routeId: string, r: RecipeRecord): (req: PutRecord)
    ensures req.body == r
    ensures |RecipesPath| + 1 <= |req.path|
    ensures req.path[..|RecipesPath| + 1] == RecipesPath + "/" && req.path[|RecipesPath| + 1..] == routeId
  {
    PutRecord(RecipesPath + "/" + routeId, r)
  }
}
