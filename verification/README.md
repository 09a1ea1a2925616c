# Benji dashboard server: the access gate, the login counter and the path resolvers

`server.py` is a small Flask server. Users log in through a session cookie. After that the
server gives them a dashboard page, a JSON data file, static assets, and markdown files from
a task-card tree and a fixed list of documents. Anyone not logged in sees a decoy login form.
The third failed login in a row sends the visitor to an external site.

This project models the decisions that sit inside that plumbing, and proves properties of them:

- **Access gate** (`access_gate.dfy`, module `AccessGate`). `login_required` lets a logged-in
  session through. Otherwise it answers a path under `/api/` with a JSON 401 and redirects
  every other path to `/login`. `static_files` adds its own rule: a `.json` file other than
  `package.json` needs a login.
- **Credential check and attempt counter** (`auth.dfy`, module `Auth`).
  - The session record `SessionData` holds the keys `authenticated`, `username` and
    `login_attempts`, plus Flask's `permanent` flag.
  - `Classify` is the credential check: the username goes through `.lower().strip()` and must be
    `rafy` or `ryan`, and the password must be exactly the configured one.
  - `Transition` is the counter state machine and `LoginStep` is their composition.
  - The class `Auth.Session` holds one visitor's live session. Its methods `Login` and `Logout`
    update its fields in place, as the source updates `session`, and their postconditions tie
    each new state to `LoginStep` / `LogoutStep`.
- **Path resolvers** (`path_resolver.dfy`, module `PathResolver`).
  - `ResolveTask` and `ResolveDoc` are the ordered validation chains of `get_task_content` and
    `get_doc_content`: first the `..` check, then the allowlist, then the existence check.
  - A path is a list of components below the directory that holds the dashboard (`~/clawd`).
    Whether a path exists is the parameter `onDisk`.
- **Routes** (`server.dfy`, module `Server`). `Handle` puts each view behind its gate and says
  what response a request gets and which session it leaves. Its lemmas state the gate's promises
  at the level of whole requests:
  - an unauthenticated request never reaches a gated view;
  - an authenticated one always does;
  - content is only ever read from allowlisted places.
- `text.dfy` (module `Text`) holds the Python string operations these decisions use:
  `lower`, `strip` with Python's whitespace set, `'..' in s`, `startswith` and `endswith`.
  `http.dfy` holds the response values and `wrappers.dfy` the `Option` type.

The configured password (`AUTH_PASSWORD`) is a parameter, `authPassword`. Its fallback value
is the constant `Auth.DefaultPassword`.

Two details of the login counter are easy to misread:

- The third failed attempt itself redirects to `https://raom.kr` and removes the counter
  (server.py:131-137); there is no fourth attempt. `NthFailureResponse` and
  `ThirdFailureLeaves` state this.
- A failure only touches the counter: `authenticated` and `username` stay as they were. So a
  logged-in user who posts wrong credentials stays logged in, even when the third such failure
  sends them away. `Transition` states this.

The static route (server.py:164-171) is modelled as written: its `.json` test is case-sensitive,
and every name that does not end in `.json` is handed to the file server for anyone, the
server's own `.env`, `server.py` and `index.html` included (`Server.ServerFilesServedToAnyone`).
The response `ServeFile(name)` means that hand-over to `send_from_directory`, which then refuses
a name that escapes the directory and answers 404 for a missing file; that part is Flask's and is
not modelled. `Server.Handle` answers every route `server.py` declares as the code does. `Server.HandleFolded` is the same server with the
case-folding gate described under "## Findings".

## Model

| member | source | states |
|---|---|---|
| `Text.LowerChar` | server.py:118 | one character of `.lower()`: an upper-case ASCII letter becomes the same letter in lower case, and any other character is kept |
| `Text.Lower` | server.py:118 | `.lower()`: same length, every character lowered in place, no upper-case ASCII letter left |
| `Text.TrimStart` | server.py:118 | the result is a suffix of the input, everything dropped is whitespace, and the result does not start with whitespace |
| `Text.TrimEnd` | server.py:118 | the result is a prefix of the input, everything dropped is whitespace, and the result does not end with whitespace |
| `Text.Strip` | server.py:118 | `.strip()`: the result is a slice of the input with only whitespace around it, and it neither starts nor ends with whitespace |
| `Text.HasDotDotMeansInfix` | server.py:180 | `'..' in s` holds exactly when `s` is some `p`, then `..`, then some `q` |
| `Text.StartsWithMeansPrefix` | server.py:106 | `s.startswith(p)` holds exactly when `s` is `p` followed by something |
| `Text.EndsWithMeansSuffix` | server.py:168 | `s.endswith(t)` holds exactly when `s` is something followed by `t` |
| `Auth.IsAuthenticated` | server.py:95-97 | a session without the `authenticated` key reads as not logged in |
| `AccessGate.Gate` | server.py:100-111 | the request reaches the view iff the session is authenticated; an unauthenticated request gets a 401 iff its path starts with `/api/`, and a redirect to `/login` otherwise |
| `AccessGate.StaticGate` | server.py:167-171 | as written: never a redirect; a 401 exactly for an unauthenticated request for a name ending in `.json` other than `package.json`; everything else is served |
| `AccessGate.CaseVariantPassesStaticGate` | server.py:168-170 | the as-written gate serves `<stem>.JSON` (e.g. `dashboard-data.JSON`) unauthenticated, although the name folds to `<stem>.json`, which the gate protects |
| `AccessGate.StaticGateFolded` | server.py:168-170 | corrected gate: a 401 exactly when an unauthenticated request names, in any letter case, a `.json` file other than `package.json` |
| `AccessGate.FoldedGateIgnoresCase` | server.py:168-170 | two spellings of one name get the same decision from the corrected gate |
| `AccessGate.FoldedGateAgreesOnLowerCase` | server.py:168-170 | on lower-case names the corrected gate decides exactly as the source does |
| `AccessGate.FoldedGateCoversSourceGate` | server.py:168-170 | every name the source gate protects stays protected under the corrected gate, except spellings of `package.json` |
| `AccessGate.DashboardStemIsLower` | server.py:157-161 | the stem of the protected `dashboard-data.json` is lower case, so the case-variant counterexample applies to it |
| `Auth.NormalizeUsername` | server.py:118 | the normalised name is a slice of the lower-cased raw name with only whitespace around it; it holds no upper-case letter (so `RAFY` and `rafy` are one user) and neither starts nor ends with whitespace |
| `Auth.Classify` | server.py:117-122 | a GET only shows the form; a POST fails iff the normalised name is not allowlisted or the password differs; a success carries the normalised, allowlisted name |
| `Auth.Transition` | server.py:123-140 | success logs in the user, makes the session permanent, drops the counter and redirects to `/`; the failure that brings the count to 3 drops the counter and redirects to `https://raom.kr`; an earlier failure stores the count and shows the form with its error mark; a failure never changes who is logged in; the counter stays absent, 1 or 2 |
| `Auth.LoginStep` | server.py:114-140 | the response is the redirect to `/` iff the POST carries valid credentials, and then the session is authenticated as an allowlisted user |
| `Auth.LogoutStep` | server.py:143-147 | after logout the session is not authenticated and holds no username, no counter and no permanent flag |
| `Auth.ReplayKeepsCounterInvariant` | server.py:130-137 | no run of `/login` requests leaves a counter other than absent, 1 or 2 |
| `Auth.FailureRunCount` | server.py:130-137 | after n failures in a row the counter is (start + n) mod 3, and the login state is unchanged |
| `Auth.NthFailureResponse` | server.py:134-139 | the n-th failure in a row redirects away exactly when start + n is a multiple of 3; every other failure shows the form with the error mark |
| `Auth.FailedRequestsAreFailures` | server.py:122-139 | replaying any run of failed POSTs, whatever was wrong in each, is the same as that many failures |
| `Auth.ThirdFailureLeaves` | server.py:130-139 | from a fresh session: error form, error form, then the external redirect, and the session is empty again |
| `Auth.FailuresIndistinguishable` | server.py:122-139 | an unknown user and a wrong password produce the same response and the same session |
| `Auth.LogoutIdempotent` | server.py:143-147 | logging out twice leaves the same session as logging out once |
| `Auth.NormalizedNameLogsIn` | server.py:118-128 | any raw name that normalises to an allowlisted name, with the right password, logs in as the normalised name, drops the counter and redirects to `/` |
| `Auth.NormalizeMixedCase` | server.py:118-120 | ` RAFY ` normalises to `rafy`, which is allowlisted |
| `Auth.Session.constructor` | server.py:95-97 | a new session holds no key, so it is not authenticated |
| `Auth.Session.Login` | server.py:114-140 | the new session and the response are those of `LoginStep` on the old session |
| `Auth.Session.RecordSuccess` | server.py:123-128 | the success branch: the new session and response are those of `Transition` on a success |
| `Auth.Session.RecordFailure` | server.py:130-139 | the failure branch: the new session and response are those of `Transition` on a failure |
| `Auth.Session.Logout` | server.py:143-147 | every key is cleared, and the response redirects to `/` |
| `PathResolver.ResolveTask` | server.py:174-200 | 400 "Invalid path" iff folder or filename holds `..`; otherwise 400 "Invalid folder" iff the folder is not allowlisted; otherwise 404 iff `tasks/folder/filename` is missing; the file is found exactly when every check passes and it exists, and then the answer echoes folder and filename and reads that file |
| `PathResolver.TaskChecksPrecedeFilesystem` | server.py:180-191 | a request stopped by the traversal or folder check gets the same answer whatever is on disk |
| `PathResolver.UnknownFolderRejected` | server.py:184-186 | a folder outside the allowlist gets a 400, whatever the filename is |
| `PathResolver.TaskFilesStayInTaskFolders` | server.py:184-190 | a resolved file is `tasks/<allowlisted folder>/<name>`, and no component holds `..` |
| `PathResolver.NoDotDotInPlainNames` | server.py:184 | `tasks` and the four allowlisted folders hold no `..` |
| `PathResolver.MissingTaskFileIsNotFound` | server.py:189-191 | `active/foo.md` with no such file on disk gets a 404 |
| `PathResolver.ResolveDoc` | server.py:206-239 | 400 iff the key holds `..`; otherwise 403 iff the key is not one of the five; otherwise 404 iff the mapped file is missing; the file is found exactly when every check passes and the mapped file exists, and then `path` is the requested key and `filename` is the mapped file's last component |
| `PathResolver.DocChecksPrecedeFilesystem` | server.py:212-226 | a request stopped by the traversal or allowlist check gets the same answer whatever is on disk |
| `PathResolver.DocFilesAreAllowlisted` | server.py:217-228 | only the five mapped files can be read, each under its own key |
| `PathResolver.TraversalCheckOnlyChangesStatus` | server.py:212-226 | a key holding `..` is never allowlisted, so the traversal check only turns a 403 into a 400 |
| `PathResolver.NoDotDotInDocKeys` | server.py:217-223 | no allowlisted document key holds `..` |
| `PathResolver.UnknownDocIsForbidden` | server.py:225-226 | `unknown/key.md` gets a 403 "Document not allowed" |
| `PathResolver.KnownDocResolves` | server.py:228-239 | `knowledge/youtube.md`, when its file exists, resolves to that file and is named `youtube.md` |
| `Server.View` | server.py:150-242 | the view bodies: `/` serves `index.html` and `/dashboard-data.json` serves `dashboard-data.json`; a task or document answer is JSON exactly when the resolver finds the file, echoes the request and names an existing allowlisted file (a document answer's `filename` being that file's last component); a resolver rejection is answered with its own status and message (a 400, 403 or 404) |
| `Server.Handle` | server.py:150-242 | every route as written: the static route answers 401 exactly when an unauthenticated session asks for a name ending in `.json` other than `package.json` (case-sensitively), and hands the file to the file server otherwise, logged-in sessions always; task or document content goes only to an authenticated session; a task file is `tasks/<allowlisted folder>/<name>` and exists; a document file is one of the five mapped files, exists and is named by its last component; `/login` is `LoginStep` and `/logout` is `LogoutStep` with a redirect to `/`; no other route changes the session |
| `Server.HandleFolded` | server.py:164-171 | corrected static route: a 401 exactly when an unauthenticated request names, in any letter case, a `.json` file other than `package.json`, otherwise the file; every other route answers as `Handle` |
| `Server.ApiPathsUnderPrefix` | server.py:104-109 | among the gated routes, exactly the task and document routes have paths under `/api/` |
| `Server.UnauthenticatedNeverReachesView` | server.py:103-110 | an unauthenticated request to a gated route gets a 401 on the API routes and a redirect to `/login` otherwise; the disk is not consulted and the session is unchanged |
| `Server.AuthenticatedReachesView` | server.py:110 | an authenticated request to a gated route gets exactly its view's answer |
| `Server.OpenRoutesBypassGate` | server.py:114-148 | `/health`, `/logout` and `GET /login` answer the same whatever the session |
| `Server.LogoutClosesGatedRoutes` | server.py:143-147 | after `/logout` every gated route is denied again |
| `Server.PublicStaticFiles` | server.py:164-171 | exactly `package.json`, and every name that does not end in `.json` (case-sensitively, so `X.JSON` too), is served to anyone, with the session kept |
| `Server.DataFilesNeedLogin` | server.py:168-170 | an unauthenticated request for any other name ending in lower-case `.json` (`Package.json` included) gets a 401 |
| `Server.ServerFilesServedToAnyone` | server.py:164-171 | `.env`, `server.py` and `index.html` are served whatever the session |
| `Server.FoldedPublicStaticFiles` | server.py:168-171 | corrected gate: every spelling of `package.json` and every name not folding to a `.json` name is served to anyone |
| `Server.FoldedDataFilesNeedLogin` | server.py:168-170 | corrected gate: an unauthenticated request for any other `.json` name, in any letter case, gets a 401 |

## Left out

- Flask routing, the `@wraps` decorator mechanics, CORS and the response builders (`jsonify`,
  `send_from_directory`, `redirect`, `render_template_string`). Requests arrive already routed,
  and responses are values.
- Session cookie signing, the cookie flags, the 30-day lifetime and the random fallback secret key
  (server.py:24-28). They are cryptography and configuration. `permanent` is kept only as a flag.
- Loading `.env` and `os.environ`, and the `__main__` start-up (server.py:17-18, 35, 251-255).
  These are process I/O. The password is a parameter.
- The HTML and CSS of the login page (server.py:38-92). It is modelled as a `LoginForm` value
  with an error flag.
- The file reads, UTF-8 decoding and the `except Exception` 500 answers (server.py:193-194,
  202-203, 232-233, 241-242). These are filesystem I/O. Whether a file exists is the `onDisk`
  parameter, and a found result names the file that would be read.
- pathlib's joining rules. Flask's `<folder>` and `<filename>` converters never yield a `/`, so
  `TASKS_DIR / folder / filename` is modelled as appending two components. pathlib's reset on an
  absolute segment cannot occur. pathlib does drop a `.` component, so `/api/task/active/.`
  names the folder itself: it exists, the read fails and the answer is a 500. The model treats
  `tasks/active/.` as a file of its own.
- Flask's built-in `/static/<path:filename>` route, which `Flask(__name__)` registers by itself
  and which Werkzeug prefers to `/<path:filename>`. It serves the `static` sub-directory without
  the `.json` check. `server.py` does not declare it, and `Server.Request` has no case for it.
- Concurrent login POSTs on one session, which could race on the counter.
- Text.Lower: lowers ASCII letters only; Python's `str.lower()` also lowers non-ASCII letters.
  A few of those lower to ASCII: U+212A (Kelvin sign) becomes `k`, and U+0130 becomes `i`
  followed by U+0307. Neither `k` nor `i` occurs in `rafy` or `ryan`, so no name that the
  model refuses could log in under Python's rules either.

## Findings

| source | as written | input that shows it | evidently intended | confidence | as-written member | corrected member |
|---|---|---|---|---|---|---|
| server.py:168-170 | the data-file check tests the suffix `.json` case-sensitively | unauthenticated `GET /dashboard-data.JSON`: it does not match the `/dashboard-data.json` route, and `static_files` passes it to the file server; on a case-insensitive filesystem (the macOS default) that serves the protected `dashboard-data.json` | every spelling of a `.json` data file other than `package.json` needs a login | medium, not executed; holds only where the filesystem folds case | `AccessGate.CaseVariantPassesStaticGate` | `AccessGate.StaticGateFolded` |

`Server.Handle` and `AccessGate.StaticGate` keep the check as written. `Server.HandleFolded` uses
the corrected gate for the static route. `FoldedGateAgreesOnLowerCase` shows that the two gates
decide alike on every lower-case name.
