/** The plugin's dispatcher (`router`, main.py:605-639) and the parameter
    maps the plugin writes into the URLs of its own menu entries (the keyword
    arguments given to `get_url`, main.py:263, 293, 354, 359, 391, 424).
    Parsing and URL-encoding of the query string are not modelled: the router
    receives the already parsed map. */
module Routing {
  import opened Wrappers
  import opened Numerals

  /** The video type `play_video_ai` uses when the router does not pass one (main.py:505). */
  const DefaultVideoType: string := "MOVIE"

  /** What one invocation of the plugin does. Ids the router converts with
      `int` are `int` here; those it passes on as text stay `string`. */
  datatype Action =
    | ListCategories
    | ListSubCategories(categoryText: string)
    | ListVideos(category: int, subcategory: int)
    | ListSeries(category: int, subcategory: int, videoId: int)
    | ListEpisodes(serialId: int, seasonId: int)
    | Play(video: string, videoType: string)

  /** Why the router gives up: a missing key (`KeyError`), text that `int`
      rejects (`ValueError`), or an action it does not know (the explicit
      `ValueError('Invalid paramstring ...')`). */
  datatype RouteError =
    | MissingParameter(name: string)
    | NotAnInteger(name: string, text: string)
    | InvalidParamstring

  /** The `action` values the router dispatches on. */
  const KnownActions: set<string> := {"categories", "listing", "serial", "episodes", "play"}

  /** The `action` value that selects `a`; the category listing has none. */
  function ActionName(a: Action): string {
    match a
    case ListCategories => ""
    case ListSubCategories(_) => "categories"
    case ListVideos(_, _) => "listing"
    case ListSeries(_, _, _) => "serial"
    case ListEpisodes(_, _) => "episodes"
    case Play(_, _) => "play"
  }

  /** `params[name]`, failing as Python's `KeyError` would. */
  function TextParam(params: map<string, string>, name: string): (r: Result<string, RouteError>)
    ensures r.Success? <==> name in params
    ensures r.Success? ==> r.value == params[name]
    ensures r.Failure? ==> r.error == MissingParameter(name)
  {
    if name in params then Success(params[name]) else Failure(MissingParameter(name))
  }

  /** `int(params[name])`, failing as `KeyError` or `ValueError` would. */
  function IntParam(params: map<string, string>, name: string): (r: Result<int, RouteError>)
    ensures r.Success? <==> name in params && IsIntLiteral(params[name])
    ensures name !in params ==> r == Failure(MissingParameter(name))
    ensures name in params && !IsIntLiteral(params[name]) ==> r == Failure(NotAnInteger(name, params[name]))
    ensures r.Success? ==> ParseInt(params[name]) == Some(r.value)
  {
    var text :- TextParam(params, name);
    match ParseInt(text)
    case Some(n) => Success(n)
    case None => Failure(NotAnInteger(name, text))
  }

  /** The key is present and holds text `int` accepts. */
  predicate HasIntParam(params: map<string, string>, name: string) {
    name in params && IsIntLiteral(params[name])
  }

  /** Every argument the handler named by `action` reads is present, and
      those it converts with `int` are integer literals. */
  predicate HasArguments(params: map<string, string>, action: string) {
    (action == "categories" ==> "category" in params) &&
    (action == "listing" ==> HasIntParam(params, "category") && HasIntParam(params, "subcategory")) &&
    (action == "serial" ==>
      HasIntParam(params, "category") && HasIntParam(params, "subcategory") && HasIntParam(params, "video_id")) &&
    (action == "episodes" ==> HasIntParam(params, "serial_id") && HasIntParam(params, "season_id")) &&
    (action == "play" ==> "video" in params)
  }

  /** The dispatch of `router`: no parameters at all list the categories,
      otherwise `action` picks the handler and its arguments are read in the
      order the source reads them. */
  function Route(params: map<string, string>): (r: Result<Action, RouteError>)
    ensures params == map[] ==> r == Success(ListCategories)
    ensures params != map[] && "action" !in params ==> r == Failure(MissingParameter("action"))
    ensures r == Failure(InvalidParamstring)
            <==> params != map[] && "action" in params && params["action"] !in KnownActions
    ensures r.Success?
            <==> params == map[] ||
                 ("action" in params && params["action"] in KnownActions && HasArguments(params, params["action"]))
    ensures r.Failure? && r.error.MissingParameter? ==> r.error.name !in params
    ensures r.Failure? && r.error.NotAnInteger? ==>
            r.error.name in params && params[r.error.name] == r.error.text && !IsIntLiteral(r.error.text)
    ensures r.Success? && params != map[]
            ==> "action" in params && params["action"] == ActionName(r.value)
    ensures r.Success? && r.value.ListSubCategories? ==> params["category"] == r.value.categoryText
    ensures r.Success? && r.value.ListVideos? ==>
            IntParam(params, "category") == Success(r.value.category) &&
            IntParam(params, "subcategory") == Success(r.value.subcategory)
    ensures r.Success? && r.value.ListSeries? ==>
            IntParam(params, "category") == Success(r.value.category) &&
            IntParam(params, "subcategory") == Success(r.value.subcategory) &&
            IntParam(params, "video_id") == Success(r.value.videoId)
    ensures r.Success? && r.value.ListEpisodes? ==>
            IntParam(params, "serial_id") == Success(r.value.serialId) &&
            IntParam(params, "season_id") == Success(r.value.seasonId)
    ensures r.Success? && r.value.Play? ==>
            params["video"] == r.value.video && r.value.videoType == DefaultVideoType
  {
    if params == map[] then
      Success(ListCategories)
    else if "action" !in params then
      Failure(MissingParameter("action"))
    else
      var action := params["action"];
      if action == "categories" then
        var category :- TextParam(params, "category");
        Success(ListSubCategories(category))
      else if action == "listing" then
        var category :- IntParam(params, "category");
        var subcategory :- IntParam(params, "subcategory");
        Success(ListVideos(category, subcategory))
      else if action == "serial" then
        var category :- IntParam(params, "category");
        var subcategory :- IntParam(params, "subcategory");
        var videoId :- IntParam(params, "video_id");
        Success(ListSeries(category, subcategory, videoId))
      else if action == "episodes" then
        var serialId :- IntParam(params, "serial_id");
        var seasonId :- IntParam(params, "season_id");
        Success(ListEpisodes(serialId, seasonId))
      else if action == "play" then
        var video :- TextParam(params, "video");
        Success(Play(video, DefaultVideoType))
      else
        Failure(InvalidParamstring)
  }

  /** The parameters the plugin puts in the URL of a menu entry that leads to
      `a`: the keyword arguments of `get_url`, with ints written by `str`. */
  function Link(a: Action): map<string, string> {
    match a
    case ListCategories => map[]
    case ListSubCategories(category) =>
      map["action" := "categories", "category" := category]
    case ListVideos(category, subcategory) =>
      map["action" := "listing", "category" := IntToString(category),
          "subcategory" := IntToString(subcategory)]
    case ListSeries(category, subcategory, videoId) =>
      map["action" := "serial", "category" := IntToString(category),
          "subcategory" := IntToString(subcategory), "video_id" := IntToString(videoId)]
    case ListEpisodes(serialId, seasonId) =>
      map["action" := "episodes", "serial_id" := IntToString(serialId),
          "season_id" := IntToString(seasonId)]
    case Play(video, _) =>
      map["action" := "play", "video" := video]
  }

  /** Every link the plugin writes routes back to the action it was written
      for; a `play` link always plays with the default video type. */
  lemma RouteOfLink(a: Action)
    requires a.Play? ==> a.videoType == DefaultVideoType
    ensures Route(Link(a)) == Success(a)
  {
    var params := Link(a);
    match a
    case ListCategories =>
    case ListSubCategories(_) =>
      assert "action" in params;
    case ListVideos(category, subcategory) =>
      ParseIntOfIntToString(category);
      ParseIntOfIntToString(subcategory);
      assert IntParam(params, "category") == Success(category);
      assert IntParam(params, "subcategory") == Success(subcategory);
    case ListSeries(category, subcategory, videoId) =>
      ParseIntOfIntToString(category);
      ParseIntOfIntToString(subcategory);
      ParseIntOfIntToString(videoId);
      assert IntParam(params, "category") == Success(category);
      assert IntParam(params, "subcategory") == Success(subcategory);
      assert IntParam(params, "video_id") == Success(videoId);
    case ListEpisodes(serialId, seasonId) =>
      ParseIntOfIntToString(serialId);
      ParseIntOfIntToString(seasonId);
      assert IntParam(params, "serial_id") == Success(serialId);
      assert IntParam(params, "season_id") == Success(seasonId);
    case Play(_, _) =>
      assert "action" in params;
  }
}
