/**
 * The authentication gate: `login_required` in front of the gated routes, and the
 * extra rule of `static_files` that keeps data files behind the login.
 */
module AccessGate {
  import opened Text

  datatype Decision = Allow | Unauthorized401 | RedirectLogin

  /** requests under this prefix are API calls and get a JSON 401 instead of a redirect */
  const ApiPrefix := "/api/"
  const DataExtension := ".json"
  /** the one data file that is always public */
  const PackageManifest := "package.json"

  /** `login_required`: the decision for a request to a gated route with the given path */
  function Gate(authenticated: bool, path: string): (d: Decision)
    ensures d == Allow <==> authenticated
    ensures d == Unauthorized401 <==> !authenticated && StartsWith(path, ApiPrefix)
    ensures d == RedirectLogin <==> !authenticated && !StartsWith(path, ApiPrefix)
  {
    if !authenticated then
      if StartsWith(path, ApiPrefix) then Unauthorized401 else RedirectLogin
    else Allow
  }

  /** a file `static_files` keeps behind the login, as the source tests it (case-sensitively) */
  predicate IsDataFile(filename: string) {
    EndsWith(filename, DataExtension) && filename != PackageManifest
  }

  /**
   * The check at the top of `static_files` as written: an unauthenticated request for a
   * `.json` file other than `package.json` gets a 401; everything else goes to the file server.
   * It never redirects to the login page.
   */
  function StaticGate(authenticated: bool, filename: string): (d: Decision)
    ensures d != RedirectLogin
    ensures d == Unauthorized401 <==> !authenticated && IsDataFile(filename)
    ensures authenticated || !IsDataFile(filename) ==> d == Allow
  {
    if IsDataFile(filename) && !authenticated then Unauthorized401 else Allow
  }

  /**
   * The same check on the name as a case-folding filesystem sees it: the decision depends
   * only on `Lower(filename)`, so no spelling of a protected data file escapes the gate.
   */
  function StaticGateFolded(authenticated: bool, filename: string): (d: Decision)
    ensures d != RedirectLogin
    ensures d == Unauthorized401 <==> !authenticated && IsDataFile(Lower(filename))
  {
    StaticGate(authenticated, Lower(filename))
  }

  /**
   * The as-written gate lets an unauthenticated request for `<stem>.JSON` through, although
   * that name folds to `<stem>.json`, which it protects; `dashboard-data` is such a stem.
   */
  lemma CaseVariantPassesStaticGate(stem: string)
    requires Lower(stem) == stem && stem != "package"
    ensures Lower(stem + ".JSON") == stem + ".json"
    ensures StaticGate(false, stem + ".json") == Unauthorized401
    ensures StaticGate(false, stem + ".JSON") == Allow
  {
    LowerAppend(stem, ".JSON");
    LowerExtension();
    assert (stem + ".JSON")[|stem|..] == ".JSON";
    assert (stem + ".json")[|stem|..] == ".json";
  }

  lemma LowerAppend(a: string, b: string)
    ensures Lower(a + b) == Lower(a) + Lower(b)
  {
    assert forall i :: 0 <= i < |b| ==> (a + b)[|a| + i] == b[i];
  }

  /** `dashboard-data`, the stem of the protected dashboard data file, is already in lower case */
  lemma DashboardStemIsLower()
    ensures Lower("dashboard-data") == "dashboard-data"
  {
    var s := "dashboard-data";
    assert forall i :: 0 <= i < |s| ==> !IsUpper(s[i]);
  }

  lemma LowerExtension()
    ensures Lower(".JSON") == ".json"
  {
    assert Lower(".JSON")[1] == LowerChar('J');
    assert Lower(".JSON")[2] == LowerChar('S');
    assert Lower(".JSON")[3] == LowerChar('O');
    assert Lower(".JSON")[4] == LowerChar('N');
  }

  /** Two spellings of one name get the same decision from the folded gate. */
  lemma FoldedGateIgnoresCase(authenticated: bool, f: string, g: string)
    requires Lower(f) == Lower(g)
    ensures StaticGateFolded(authenticated, f) == StaticGateFolded(authenticated, g)
  {
  }

  /** On names already in lower case the folded gate decides exactly as the source does. */
  lemma FoldedGateAgreesOnLowerCase(authenticated: bool, filename: string)
    requires Lower(filename) == filename
    ensures StaticGateFolded(authenticated, filename) == StaticGate(authenticated, filename)
  {
  }

  /** The folded gate protects every name the source protects, except spellings of `package.json`. */
  lemma {:induction false} FoldedGateCoversSourceGate(filename: string)
    requires StaticGate(false, filename) == Unauthorized401
    requires Lower(filename) != PackageManifest
    ensures StaticGateFolded(false, filename) == Unauthorized401
  {
    var n := |filename|;
    var low := Lower(filename);
    assert filename[n - 5..] == DataExtension;
    forall i | n - 5 <= i < n ensures low[i] == filename[i] {
      assert filename[i] == DataExtension[i - (n - 5)];
    }
    assert low[n - 5..] == DataExtension;
  }
}
