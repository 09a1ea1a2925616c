/** The decision results the server's handlers produce, without the framework that renders them. */
module Http {

  /** A file location as its components below the directory that holds the dashboard (`~/clawd`). */
  type Path = seq<string>

  datatype Response =
    | Redirect(location: string)                                // `redirect(location)`, HTTP 302
    | JsonError(status: nat, error: string)                     // `jsonify({"error": error}), status`
    | LoginForm(showError: bool)                                // the login page, with or without its error mark
    | ServeFile(filename: string)                               // `send_from_directory(DASHBOARD_DIR, filename)`
    | TaskJson(folder: string, filename: string, file: Path)    // 200 `{content, filename, folder}`, content read from `file`
    | DocJson(path: string, filename: string, file: Path)       // 200 `{content, path, filename}`, content read from `file`
    | HealthOk                                                  // `{"status": "ok"}`

  const Unauthorized := JsonError(401, "Unauthorized")
}
