/**
 * The API key middleware: every request whose path is not excluded must
 * carry an x-api-key header equal to the configured key, or it is answered
 * with 403 {"error": "Forbidden"} and never reaches the application.
 *
 * An excluded path covers itself and everything below it: "/docs" covers
 * "/docs" and "/docs/x", not "/docsx".
 */
module Auth {
  import opened Wrappers
  import opened Text

  const MissingKeyMessage := "APP_API_KEY environment variable is required for API key authentication."
  const ForbiddenStatus := 403
  const ForbiddenError := "Forbidden"

  /** What dispatch does with a request: pass it on, or answer it itself. */
  datatype Outcome =
    | Forward
    | Reject(statusCode: int, error: string)

  /** The excluded path p covers path. */
  predicate Covers(p: string, path: string) {
    path == p || StartsWith(path, p + "/")
  }

  /** Some excluded path covers path. */
  predicate Excludes(excludedPaths: set<string>, path: string) {
    exists p :: p in excludedPaths && Covers(p, path)
  }

  /** `set(excluded_paths or set())`: no paths, or an empty list, gives the empty set. */
  function ExcludedSet(excludedPaths: Option<seq<string>>): (r: set<string>)
    ensures forall p :: p in r <==> excludedPaths.Some? && p in excludedPaths.value
  {
    if excludedPaths.None? then {} else set p | p in excludedPaths.value
  }

  class APIKeyMiddleware {
    const apiKey: string
    const excludedPaths: set<string>

    /** A middleware always holds a key, so a missing or empty header never matches it. */
    ghost predicate Valid() {
      apiKey != []
    }

    constructor Init(apiKey: string, excludedPaths: set<string>)
      requires apiKey != []
      ensures Valid()
      ensures this.apiKey == apiKey && this.excludedPaths == excludedPaths
    {
      this.apiKey := apiKey;
      this.excludedPaths := excludedPaths;
    }

    /**
     * `APIKeyMiddleware(app, api_key=..., excluded_paths=...)`: refused with
     * the RuntimeError's message when the key is empty.
     */
    static method Create(apiKey: string, excludedPaths: Option<seq<string>>) returns (r: Result<APIKeyMiddleware, string>)
      ensures r.Err? <==> apiKey == []
      ensures r.Err? ==> r.error == MissingKeyMessage
      ensures r.Ok? ==> fresh(r.value) && r.value.Valid()
      ensures r.Ok? ==> r.value.apiKey == apiKey && r.value.excludedPaths == ExcludedSet(excludedPaths)
    {
      if apiKey == [] {
        return Err(MissingKeyMessage);
      }
      var middleware := new APIKeyMiddleware.Init(apiKey, ExcludedSet(excludedPaths));
      return Ok(middleware);
    }

    /** `_is_excluded`: tries the excluded paths one at a time. */
    method IsExcluded(path: string) returns (excluded: bool)
      ensures excluded <==> Excludes(excludedPaths, path)
    {
      if excludedPaths == {} {
        return false;
      }
      var remaining := excludedPaths;
      while remaining != {}
        invariant remaining <= excludedPaths
        invariant forall p :: p in excludedPaths && Covers(p, path) ==> p in remaining
        decreases |remaining|
      {
        var p :| p in remaining;
        if path == p || StartsWith(path, p + "/") {
          return true;
        }
        remaining := remaining - {p};
      }
      return false;
    }

    /**
     * dispatch: an excluded path is forwarded whatever the header says; any
     * other path only with the right key, and otherwise answered with 403.
     */
    method Dispatch(path: string, providedKey: Option<string>) returns (outcome: Outcome)
      requires Valid()
      ensures outcome.Forward? <==> Excludes(excludedPaths, path) || providedKey == Some(apiKey)
      ensures outcome.Reject? ==> outcome == Reject(ForbiddenStatus, ForbiddenError)
      ensures !Excludes(excludedPaths, path) && (providedKey.None? || providedKey == Some("")) ==> outcome.Reject?
    {
      var excluded := IsExcluded(path);
      if excluded {
        return Forward;
      }
      if providedKey != Some(apiKey) {
        return Reject(ForbiddenStatus, ForbiddenError);
      }
      return Forward;
    }
  }

  /** With nothing excluded, every path needs the key. */
  lemma NothingExcluded(path: string)
    ensures !Excludes({}, path)
  {
  }

  /** An excluded path covers itself and every path below it. */
  lemma ExcludedSubtree(excludedPaths: set<string>, p: string, rest: string)
    requires p in excludedPaths
    ensures Excludes(excludedPaths, p)
    ensures Excludes(excludedPaths, p + "/" + rest)
  {
    assert Covers(p, p);
    var below := p + "/" + rest;
    assert below[..|p + "/"|] == p + "/";
    assert Covers(p, below);
  }

  /**
   * Exclusion follows path segments: a path covered by p but different from
   * it continues p with a "/", so "/healthz" is not covered by "/health".
   */
  lemma CoversAtSegment(p: string, path: string)
    requires Covers(p, path) && path != p
    ensures |path| > |p| && path[..|p|] == p && path[|p|] == '/'
  {
    assert (p + "/")[|p|] == '/';
    assert path[..|p + "/"|][..|p|] == path[..|p|];
    assert (p + "/")[..|p|] == p;
  }

  lemma HealthzNotHealth()
    ensures !Excludes({"/health"}, "/healthz")
  {
    var p, path := "/health", "/healthz";
    assert |path| == |p| + 1 && path[|p|] == 'z';
    assert !Covers(p, path) by {
      assert path != p;
      assert (p + "/")[|p|] == '/';
      assert |path| < |p + "/"| || path[..|p + "/"|][|p|] == 'z';
    }
  }
}
