/** The submit decision of the daily-plan form: no request when validation fails,
    otherwise exactly one request whose body is the whole plan. */
module PlanSubmit {
  import opened Wrappers
  import opened Text
  import opened PlanTypes

  datatype HttpMethod = Post | Put

  /** A request description: HTTP method, path below the API base URL, and JSON body
      `{day, meals, workouts, quote}`. */
  datatype Request = Request(verb: HttpMethod, path: string, body: Plan)

  const Collection: string := "/dailyPlan"

  /** The endpoint the form writes to: the plan's own resource in edit mode, the
      collection in add mode. */
  function Endpoint(mode: Mode, day: int): (path: string)
    ensures |Collection| <= |path| && path[..|Collection|] == Collection
    ensures mode == AddMode <==> path == Collection
  {
    match mode
    case EditMode => Collection + "/" + IntToString(day)
    case AddMode => Collection
  }

  /** `handleSubmit` given the verdict of `validate()`. */
  function SubmitRequest(mode: Mode, p: Plan, valid: bool): (r: Option<Request>)
    ensures r.None? <==> !valid
    ensures r.Some? ==> r.value.body == p
    ensures r.Some? ==> (r.value.verb == Put <==> mode == EditMode)
    ensures r.Some? ==> r.value.path == Endpoint(mode, p.day)
  {
    if !valid then None
    else
      match mode
      case EditMode => Some(Request(Put, Endpoint(mode, p.day), p))
      case AddMode => Some(Request(Post, Endpoint(mode, p.day), p))
  }

  lemma NoSlashInNumber(n: nat)
    ensures '/' !in NatToString(n)
  {
  }

  lemma SplitPath(a: string, b: string)
    requires '/' !in a && '/' !in b
    ensures Split("/" + a + "/" + b, '/') == ["", a, b]
  {
    SplitWithoutSep(a, '/');
    SplitWithoutSep(b, '/');
    SplitAround(a, b, '/');
    SplitAround([], a + ['/'] + b, '/');
    assert "/" + a + "/" + b == [] + ['/'] + (a + ['/'] + b);
  }

  /** The edit endpoint spelled out as its pieces. */
  lemma EditEndpointPieces(day: int)
    requires day >= 0
    ensures Endpoint(EditMode, day) == "/" + "dailyPlan" + "/" + NatToString(day)
  {
    assert Collection == "/" + "dailyPlan";
  }

  /** For a day that passed validation the edit endpoint is the path
      `/dailyPlan/<day>`: its segments are the collection and the decimal day, and the
      last segment reads back as the day. */
  lemma EditPathNamesDay(day: int)
    requires day >= 1
    ensures Split(Endpoint(EditMode, day), '/') == ["", "dailyPlan", NatToString(day)]
    ensures ParseNat(Split(Endpoint(EditMode, day), '/')[2]) == Some(day)
  {
    var digits := NatToString(day);
    NoSlashInNumber(day);
    assert '/' !in "dailyPlan";
    SplitPath("dailyPlan", digits);
    EditEndpointPieces(day);
    ParseNatToString(day);
  }

  /** Distinct days are written to distinct resources. */
  lemma EditEndpointInjective(d1: int, d2: int)
    requires d1 >= 1 && d2 >= 1
    requires Endpoint(EditMode, d1) == Endpoint(EditMode, d2)
    ensures d1 == d2
  {
    EditPathNamesDay(d1);
    EditPathNamesDay(d2);
  }
}
