/**
 * The routes of the web server (app.py): the main page and the three
 * exercise pages. Rendering a template is modelled as the record of what
 * the template is given, so a request is a pure lookup from its path and
 * its `show` query parameter to a page.
 */
module App {
  import opened Wrappers
  import opened Utils
  import opened Parameters

  /** What a handler hands to `render_template`: the template and its variables. */
  datatype Page =
    | IndexPage(template: string, showWelcome: bool, ui: UiColors)
    | ExercisePage(template: string, config: Exercise, general: General)

  /**
   * `index` (route `/`). An absent `show` parameter counts as `"welcome"`;
   * the welcome screen is shown exactly when the parameter is that word.
   */
  function Index(show: Option<string>): (p: Page)
    ensures p.IndexPage? && p.template == "index.html"
    ensures p.ui == Ui
    ensures p.showWelcome <==> show.None? || show.value == "welcome"
  {
    var showParam := if show.Some? then show.value else "welcome";
    IndexPage("index.html", showParam == "welcome", Ui)
  }

  /** The page routes the application declares. */
  const Routes: set<string> := {"/", "/select/ansiedad", "/select/ira", "/select/estres"}

  /**
   * The page a request for `path` renders, or `None` for every path that is
   * not one of the four page routes (`serve_styles` and the static files are
   * left out).
   * Each exercise page gets its own table and the shared timings.
   */
  function Dispatch(path: string, show: Option<string>): (p: Option<Page>)
    ensures p.Some? <==> path in Routes
    ensures path == "/" ==> p == Some(Index(show))
    ensures p.Some? && p.value.ExercisePage? ==>
      p.value.general == GeneralTimings && WellFormed(p.value.config)
  {
    if path == "/" then
      Some(Index(show))
    else if path == "/select/ansiedad" then
      ExercisesWellFormed(Ansiedad);
      Some(ExercisePage("ansiedad.html", Ansiedad, GeneralTimings))
    else if path == "/select/ira" then
      ExercisesWellFormed(Ira);
      Some(ExercisePage("ira.html", Ira, GeneralTimings))
    else if path == "/select/estres" then
      ExercisesWellFormed(Estres);
      Some(ExercisePage("estres.html", Estres, GeneralTimings))
    else
      None
  }

  /** Without a `show` parameter the main page opens on the welcome screen; with `main` it does not. */
  lemma IndexWelcome()
    ensures Dispatch("/", None).value.showWelcome
    ensures Dispatch("/", Some("welcome")).value.showWelcome
    ensures !Dispatch("/", Some("main")).value.showWelcome
  {
  }

  /**
   * `/select/<name>` renders `<name>.html` with the table of that name, for
   * exactly the three names, matched exactly and case-sensitively; the
   * `show` parameter plays no part.
   */
  lemma SelectRoutes(name: string, show: Option<string>)
    ensures Dispatch("/select/" + name, show).Some? <==> name in {"ansiedad", "ira", "estres"}
    ensures name == "ansiedad" ==> Dispatch("/select/" + name, show) == Some(ExercisePage("ansiedad.html", Ansiedad, GeneralTimings))
    ensures name == "ira" ==> Dispatch("/select/" + name, show) == Some(ExercisePage("ira.html", Ira, GeneralTimings))
    ensures name == "estres" ==> Dispatch("/select/" + name, show) == Some(ExercisePage("estres.html", Estres, GeneralTimings))
  {
    var path := "/select/" + name;
    assert path[8..] == name;
    assert path != "/";
  }

  /** A differently capitalised exercise name is not a route. */
  lemma SelectIsCaseSensitive(show: Option<string>)
    ensures Dispatch("/select/Ansiedad", show).None?
    ensures Dispatch("/select/IRA", show).None?
  {
  }

  /**
   * Every exercise page can be animated: any ramp of its table, sampled at
   * any progress in [0, 1], gives a valid colour.
   */
  lemma ExercisePagesAnimate(path: string, show: Option<string>, key: string, progress: real)
    requires Dispatch(path, show).Some? && Dispatch(path, show).value.ExercisePage?
    requires key in Dispatch(path, show).value.config.colors && 0.0 <= progress <= 1.0
    ensures ColorFromArray(Dispatch(path, show).value.config.colors[key], progress).Some?
    ensures ValidRgb(ColorFromArray(Dispatch(path, show).value.config.colors[key], progress).value)
  {
    var e := Dispatch(path, show).value.config;
    assert IsExercise(e);
    SampleExerciseRamp(e, key, progress);
  }
}
