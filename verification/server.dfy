/**
 * The routes of the server, each with the gate its decorator or its own body puts in
 * front of it: which response a request gets and what it leaves in the session.
 */
module Server {
  import opened Text
  import opened Http
  import opened AccessGate
  import opened Auth
  import opened PathResolver

  /** a request as the router hands it to a view function */
  datatype Request =
    | Login(form: LoginRequest)                     // GET or POST /login
    | Logout                                        // GET /logout
    | Index                                         // GET /
    | DashboardData                                 // GET /dashboard-data.json
    | Static(filename: string)                      // GET /<path:filename>
    | Task(folder: string, filename: string)        // GET /api/task/<folder>/<filename>
    | Doc(docPath: string)                          // GET /api/doc/<path:doc_path>
    | Health                                        // GET /health

  const LoginPath := "/login"

  /** `request.path` of a request the router sent to the given view */
  function RequestPath(r: Request): string {
    match r
    case Login(_) => LoginPath
    case Logout => "/logout"
    case Index => "/"
    case DashboardData => "/dashboard-data.json"
    case Static(filename) => "/" + filename
    case Task(folder, filename) => "/api/task/" + folder + "/" + filename
    case Doc(docPath) => "/api/doc/" + docPath
    case Health => "/health"
  }

  /** the views wrapped in `login_required` */
  predicate IsGated(r: Request) {
    r.Index? || r.DashboardData? || r.Task? || r.Doc?
  }

  /** the routes that answer with JSON and so are denied with a 401 */
  predicate IsApi(r: Request) {
    r.Task? || r.Doc?
  }

  /** the body of a gated view, once the gate has let the request through */
  function View(r: Request, onDisk: Path -> bool): (resp: Response)
    requires IsGated(r)
    ensures resp.TaskJson? <==> r.Task? && ResolveTask(r.folder, r.filename, onDisk).TaskFound?
    ensures resp.TaskJson? ==>
              resp.folder == r.folder && resp.filename == r.filename
              && resp.file == TaskFile(r.folder, r.filename) && onDisk(resp.file)
    ensures resp.DocJson? <==> r.Doc? && ResolveDoc(r.docPath, onDisk).DocFound?
    ensures resp.DocJson? ==>
              resp.path == r.docPath && r.docPath in AllowedDocs
              && resp.file == AllowedDocs[r.docPath] && resp.filename == FileName(resp.file) && onDisk(resp.file)
    ensures resp.JsonError? ==> IsApi(r) && resp.status in {400, 403, 404}
    ensures r.Task? && ResolveTask(r.folder, r.filename, onDisk).TaskRejected? ==>
              var why := ResolveTask(r.folder, r.filename, onDisk).why;
              resp == JsonError(why.status, why.error)
    ensures r.Doc? && ResolveDoc(r.docPath, onDisk).DocRejected? ==>
              var why := ResolveDoc(r.docPath, onDisk).why;
              resp == JsonError(why.status, why.error)
    ensures r.Index? ==> resp == ServeFile("index.html")
    ensures r.DashboardData? ==> resp == ServeFile("dashboard-data.json")
  {
    match r
    case Index => ServeFile("index.html")
    case DashboardData => ServeFile("dashboard-data.json")
    case Task(folder, filename) =>
      (match ResolveTask(folder, filename, onDisk)
       case TaskFound(f, n, file) => TaskJson(f, n, file)
       case TaskRejected(why) => JsonError(why.status, why.error))
    case Doc(docPath) =>
      (match ResolveDoc(docPath, onDisk)
       case DocFound(p, n, file) => DocJson(p, n, file)
       case DocRejected(why) => JsonError(why.status, why.error))
  }

  /**
   * One request: the session it leaves and its response. Content from the task and document
   * trees is only ever returned to an authenticated session, and only from allowlisted places.
   */
  function Handle(s: SessionData, r: Request, authPassword: string, onDisk: Path -> bool): (st: Step)
    ensures st.response.TaskJson? || st.response.DocJson? ==> IsAuthenticated(s)
    ensures st.response.TaskJson? ==>
              st.response.file == TaskFile(st.response.folder, st.response.filename)
              && st.response.folder in AllowedFolders && onDisk(st.response.file)
    ensures st.response.DocJson? ==>
              st.response.file in AllowedDocs.Values && st.response.filename == FileName(st.response.file)
              && onDisk(st.response.file)
    ensures r.Static? ==> (st.response == Unauthorized <==> !IsAuthenticated(s) && IsDataFile(r.filename))
    ensures r.Static? && st.response != Unauthorized ==> st.response == ServeFile(r.filename)
    ensures !r.Login? && !r.Logout? ==> st.session == s
    ensures r.Login? ==> st == LoginStep(s, r.form, authPassword)
    ensures r.Logout? ==> st == Step(LogoutStep(s), Redirect("/"))
  {
    match r
    case Login(form) => LoginStep(s, form, authPassword)
    case Logout => Step(LogoutStep(s), Redirect("/"))
    case Health => Step(s, HealthOk)
    case Static(filename) =>
      Step(s, if StaticGate(IsAuthenticated(s), filename) == Allow then ServeFile(filename) else Unauthorized)
    case _ =>
      match Gate(IsAuthenticated(s), RequestPath(r))
      case Allow => Step(s, View(r, onDisk))
      case Unauthorized401 => Step(s, Unauthorized)
      case RedirectLogin => Step(s, Redirect(LoginPath))
  }

  /**
   * `Handle` with the static route behind the corrected, case-folding gate: no spelling of a
   * protected data file is served without a login. Every other route is answered as `Handle` does.
   */
  function HandleFolded(s: SessionData, r: Request, authPassword: string, onDisk: Path -> bool): (st: Step)
    ensures r.Static? ==> st.session == s
    ensures r.Static? ==> (st.response == Unauthorized <==> !IsAuthenticated(s) && IsDataFile(Lower(r.filename)))
    ensures r.Static? && st.response != Unauthorized ==> st.response == ServeFile(r.filename)
    ensures !r.Static? ==> st == Handle(s, r, authPassword, onDisk)
  {
    match r
    case Static(filename) =>
      Step(s, if StaticGateFolded(IsAuthenticated(s), filename) == Allow then ServeFile(filename) else Unauthorized)
    case _ => Handle(s, r, authPassword, onDisk)
  }

  /** the API routes lie under `/api/`, the gated pages do not */
  lemma {:induction false} ApiPathsUnderPrefix(r: Request)
    requires IsGated(r)
    ensures StartsWith(RequestPath(r), ApiPrefix) <==> IsApi(r)
  {
    match r
    case Task(folder, filename) =>
      assert RequestPath(r) == ApiPrefix + ("task/" + folder + "/" + filename);
    case Doc(docPath) =>
      assert RequestPath(r) == ApiPrefix + ("doc/" + docPath);
    case Index =>
    case DashboardData =>
      assert RequestPath(r)[1] != ApiPrefix[1];
  }

  /**
   * An unauthenticated request to a gated route never reaches its view: an API call gets a
   * 401, a page a redirect to the login page, the disk is not consulted and the session is kept.
   */
  lemma UnauthenticatedNeverReachesView(s: SessionData, r: Request, authPassword: string, onDisk: Path -> bool)
    requires !IsAuthenticated(s) && IsGated(r)
    ensures Handle(s, r, authPassword, onDisk)
              == Step(s, if IsApi(r) then Unauthorized else Redirect(LoginPath))
  {
    ApiPathsUnderPrefix(r);
  }

  /** An authenticated request to a gated route always gets its view's answer. */
  lemma AuthenticatedReachesView(s: SessionData, r: Request, authPassword: string, onDisk: Path -> bool)
    requires IsAuthenticated(s) && IsGated(r)
    ensures Handle(s, r, authPassword, onDisk) == Step(s, View(r, onDisk))
  {
  }

  /** `/health`, `/login` and `/logout` answer the same whether or not the session is logged in. */
  lemma OpenRoutesBypassGate(s: SessionData, authPassword: string, onDisk: Path -> bool)
    ensures Handle(s, Health, authPassword, onDisk).response == HealthOk
    ensures Handle(s, Logout, authPassword, onDisk).response == Redirect("/")
    ensures Handle(s, Login(ShowForm), authPassword, onDisk).response == LoginForm(false)
  {
  }

  /** After `/logout` every gated route is closed again. */
  lemma {:induction false} LogoutClosesGatedRoutes(s: SessionData, r: Request, authPassword: string, onDisk: Path -> bool)
    requires IsGated(r)
    ensures var out := Handle(s, Logout, authPassword, onDisk).session;
            Handle(out, r, authPassword, onDisk).response == if IsApi(r) then Unauthorized else Redirect(LoginPath)
  {
    UnauthenticatedNeverReachesView(Handle(s, Logout, authPassword, onDisk).session, r, authPassword, onDisk);
  }

  /** `package.json` and every file whose name does not end in `.json` are served to anyone. */
  lemma PublicStaticFiles(s: SessionData, filename: string, authPassword: string, onDisk: Path -> bool)
    requires filename == PackageManifest || !EndsWith(filename, DataExtension)
    ensures Handle(s, Static(filename), authPassword, onDisk) == Step(s, ServeFile(filename))
  {
  }

  /**
   * An unauthenticated request for any other name ending in `.json` gets a 401. The test is
   * case-sensitive: `Package.json` is refused, and `dashboard-data.JSON` falls under
   * `PublicStaticFiles`.
   */
  lemma DataFilesNeedLogin(s: SessionData, filename: string, authPassword: string, onDisk: Path -> bool)
    requires !IsAuthenticated(s) && EndsWith(filename, DataExtension) && filename != PackageManifest
    ensures Handle(s, Static(filename), authPassword, onDisk) == Step(s, Unauthorized)
  {
  }

  /**
   * The static route serves the server's own files to anyone: the `.env` file the password
   * and the secret key are read from, the server's source, and the page that `/` gates.
   */
  lemma ServerFilesServedToAnyone(s: SessionData, authPassword: string, onDisk: Path -> bool)
    ensures Handle(s, Static(".env"), authPassword, onDisk).response == ServeFile(".env")
    ensures Handle(s, Static("server.py"), authPassword, onDisk).response == ServeFile("server.py")
    ensures Handle(s, Static("index.html"), authPassword, onDisk).response == ServeFile("index.html")
  {
    assert !EndsWith("server.py", DataExtension) by {
      assert "server.py"[4] != DataExtension[0];
    }
    assert !EndsWith("index.html", DataExtension) by {
      assert "index.html"[6] != DataExtension[1];
    }
  }

  /** Under the corrected gate, every spelling of `package.json` and every non-`.json` name is public. */
  lemma FoldedPublicStaticFiles(s: SessionData, filename: string, authPassword: string, onDisk: Path -> bool)
    requires Lower(filename) == PackageManifest || !EndsWith(Lower(filename), DataExtension)
    ensures HandleFolded(s, Static(filename), authPassword, onDisk) == Step(s, ServeFile(filename))
  {
  }

  /** Under the corrected gate, an unauthenticated request for any other `.json` file, in any letter case, gets a 401. */
  lemma FoldedDataFilesNeedLogin(s: SessionData, filename: string, authPassword: string, onDisk: Path -> bool)
    requires !IsAuthenticated(s) && EndsWith(Lower(filename), DataExtension) && Lower(filename) != PackageManifest
    ensures HandleFolded(s, Static(filename), authPassword, onDisk) == Step(s, Unauthorized)
  {
  }
}
