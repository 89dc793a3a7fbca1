/**
 * Resolution of backend file URLs: which origin the backend lives at, and
 * how a stored file path is joined onto it.
 */
module BackendUrl {
  import opened Wrappers
  import opened Js

  /** The two build-time settings; either may be missing or empty. */
  datatype Env = Env(backendUrl: Option<string>, apiBaseUrl: Option<string>)

  const Fallback: string := "http://localhost:8080"
  const ApiSuffix: string := "/api/v1"
  const ApiSuffixSlash: string := "/api/v1/"

  predicate StartsWith(s: string, prefix: string)
  {
    |prefix| <= |s| && s[..|prefix|] == prefix
  }

  predicate EndsWith(s: string, suffix: string)
  {
    |suffix| <= |s| && s[|s| - |suffix|..] == suffix
  }

  // ---------------------------------------------------------------------
  // `apiUrl.replace(/\/api\/v1\/?$/, '')`

  /** The regular expression `\/api\/v1\/?$` matches at index `i`: the text
      from `i` to the end is `/api/v1`, optionally followed by one `/`. */
  predicate MatchesAt(s: string, i: nat)
  {
    i <= |s| && (s[i..] == ApiSuffix || s[i..] == ApiSuffixSlash)
  }

  /** The leftmost index at or after `from` where the pattern matches, as a
      regular-expression engine scanning left to right finds it. */
  function FirstMatch(s: string, from: nat): (r: Option<nat>)
    requires from <= |s|
    ensures r.Some? ==> from <= r.value <= |s| && MatchesAt(s, r.value)
    ensures r.Some? ==> forall i :: from <= i < r.value ==> !MatchesAt(s, i)
    ensures r.None? ==> forall i :: from <= i <= |s| ==> !MatchesAt(s, i)
    decreases |s| - from
  {
    if MatchesAt(s, from) then Some(from)
    else if from == |s| then None
    else FirstMatch(s, from + 1)
  }

  /** `String.prototype.replace` with a non-global pattern: the leftmost
      match, if any, is replaced by the empty string. This is the reference
      meaning of the source's regular expression. */
  function ReplaceFirstMatch(s: string): (r: string)
    ensures StartsWith(s, r)
    ensures r != s ==> MatchesAt(s, |r|) && forall i :: 0 <= i < |r| ==> !MatchesAt(s, i)
    ensures r == s ==> forall i :: 0 <= i <= |s| ==> !MatchesAt(s, i)
  {
    match FirstMatch(s, 0)
    case Some(i) => s[..i]
    case None => s
  }

  /** The suffix removal as the client performs it: because the pattern is
      anchored at the end, at most one of the two suffixes can be present. */
  function StripApiSuffix(s: string): (r: string)
    ensures StartsWith(s, r)
  {
    if EndsWith(s, ApiSuffixSlash) then s[..|s| - |ApiSuffixSlash|]
    else if EndsWith(s, ApiSuffix) then s[..|s| - |ApiSuffix|]
    else s
  }

  /** Exactly one trailing `/api/v1` or `/api/v1/` is removed, and a string
      ending in neither is returned unchanged. */
  lemma StripApiSuffixRemovesOneSuffix(s: string)
    ensures EndsWith(s, ApiSuffixSlash) ==> s == StripApiSuffix(s) + ApiSuffixSlash
    ensures EndsWith(s, ApiSuffix) ==> s == StripApiSuffix(s) + ApiSuffix
    ensures !EndsWith(s, ApiSuffix) && !EndsWith(s, ApiSuffixSlash) ==> StripApiSuffix(s) == s
  {
    var r := StripApiSuffix(s);
    if EndsWith(s, ApiSuffixSlash) {
      assert s[|s| - 7..][6] == s[|s| - 8..][7] == '/' != ApiSuffix[6];
      assert s == s[..|s| - 8] + s[|s| - 8..];
    } else if EndsWith(s, ApiSuffix) {
      assert s == s[..|s| - 7] + s[|s| - 7..];
    }
  }

  /** A match can only sit where a suffix of length 7 or 8 starts. */
  lemma MatchesAtOnlyAtSuffix(s: string, i: nat)
    requires MatchesAt(s, i)
    ensures (i + |ApiSuffix| == |s| && EndsWith(s, ApiSuffix))
         || (i + |ApiSuffixSlash| == |s| && EndsWith(s, ApiSuffixSlash))
  {
  }

  /** No index in `[from, to)` matches, so scanning from `from` finds what
      scanning from `to` finds. */
  lemma {:induction false} FirstMatchSkips(s: string, from: nat, to: nat)
    requires from <= to <= |s|
    requires forall i :: from <= i < to ==> !MatchesAt(s, i)
    ensures FirstMatch(s, from) == FirstMatch(s, to)
    decreases |s| - from
  {
    if from < to {
      FirstMatchSkips(s, from + 1, to);
    }
  }

  /** Scanning from `from` finds nothing when no index from there on matches. */
  lemma {:induction false} FirstMatchNone(s: string, from: nat)
    requires from <= |s|
    requires forall i :: from <= i <= |s| ==> !MatchesAt(s, i)
    ensures FirstMatch(s, from) == None
    decreases |s| - from
  {
    if from < |s| {
      FirstMatchNone(s, from + 1);
    }
  }

  /** The client's suffix test is exactly the regular-expression replace. */
  lemma StripApiSuffixIsRegexReplace(s: string)
    ensures StripApiSuffix(s) == ReplaceFirstMatch(s)
  {
    if EndsWith(s, ApiSuffixSlash) {
      var i := |s| - |ApiSuffixSlash|;
      forall j | 0 <= j < i ensures !MatchesAt(s, j) {
        if MatchesAt(s, j) { MatchesAtOnlyAtSuffix(s, j); }
      }
      FirstMatchSkips(s, 0, i);
      assert MatchesAt(s, i);
    } else if EndsWith(s, ApiSuffix) {
      var i := |s| - |ApiSuffix|;
      forall j | 0 <= j < i ensures !MatchesAt(s, j) {
        if MatchesAt(s, j) { MatchesAtOnlyAtSuffix(s, j); }
      }
      FirstMatchSkips(s, 0, i);
      assert MatchesAt(s, i);
    } else {
      forall j | 0 <= j <= |s| ensures !MatchesAt(s, j) {
        if MatchesAt(s, j) { MatchesAtOnlyAtSuffix(s, j); }
      }
      FirstMatchNone(s, 0);
    }
  }

  /** Only one suffix is removed: a base that ends in the suffix twice keeps
      the first copy. */
  lemma StripRemovesOnlyOneSuffix()
    ensures StripApiSuffix("http://h/api/v1/api/v1") == "http://h/api/v1"
  {
  }

  /** A suffix that is not at the very end is left in place. */
  lemma StripKeepsInnerSuffix()
    ensures StripApiSuffix("http://h/api/v1/x") == "http://h/api/v1/x"
  {
  }

  // ---------------------------------------------------------------------
  // getBackendUrl

  /** The backend origin: the explicit setting if it is non-empty, else the
      API base with its `/api/v1` suffix removed if that is non-empty, else
      the local development address. */
  function GetBackendUrl(env: Env): (origin: string)
    ensures TruthyString(env.backendUrl) ==> origin == env.backendUrl.value
    ensures !TruthyString(env.backendUrl) && TruthyString(env.apiBaseUrl) ==>
              StartsWith(env.apiBaseUrl.value, origin) &&
              origin == ReplaceFirstMatch(env.apiBaseUrl.value)
    ensures !TruthyString(env.backendUrl) && !TruthyString(env.apiBaseUrl) ==> origin == Fallback
  {
    if TruthyString(env.backendUrl) then env.backendUrl.value
    else if TruthyString(env.apiBaseUrl) then
      StripApiSuffixIsRegexReplace(env.apiBaseUrl.value);
      StripApiSuffix(env.apiBaseUrl.value)
    else Fallback
  }

  // ---------------------------------------------------------------------
  // getFileUrl

  predicate IsAbsolute(path: string)
  {
    StartsWith(path, "http://") || StartsWith(path, "https://")
  }

  /** The URL under which the browser fetches the file stored at `path`. */
  function GetFileUrl(env: Env, path: Option<string>): (url: string)
    ensures !TruthyString(path) ==> url == ""
    ensures TruthyString(path) && IsAbsolute(path.value) ==> url == path.value
  {
    if !TruthyString(path) then ""
    else if IsAbsolute(path.value) then path.value
    else
      var origin := GetBackendUrl(env);
      if StartsWith(path.value, "/") then origin + path.value
      else origin + "/" + path.value
  }

  /** A relative path resolves to the origin followed by the path, with
      exactly one `/` added in front when the path has none of its own; the
      origin itself is used as is, so a trailing `/` on it is kept. */
  lemma RelativePathJoin(env: Env, p: string)
    requires p != "" && !IsAbsolute(p)
    ensures StartsWith(GetFileUrl(env, Some(p)), GetBackendUrl(env))
    ensures GetFileUrl(env, Some(p))[|GetBackendUrl(env)|] == '/'
    ensures p[0] == '/' ==> GetFileUrl(env, Some(p)) == GetBackendUrl(env) + p
    ensures p[0] != '/' ==> GetFileUrl(env, Some(p)) == GetBackendUrl(env) + "/" + p
  {
    var origin := GetBackendUrl(env);
    if p[0] == '/' {
      assert StartsWith(p, "/");
      assert (origin + p)[|origin|] == p[0];
    } else {
      assert !StartsWith(p, "/");
    }
  }

  /** A non-empty path never resolves to the empty string. */
  lemma NonEmptyPathGivesNonEmptyUrl(env: Env, p: string)
    requires p != ""
    ensures GetFileUrl(env, Some(p)) != ""
  {
  }

  /** With no settings, `avatars/x.jpg` is served from the development origin. */
  lemma DevelopmentOriginExample()
    ensures GetFileUrl(Env(None, None), Some("avatars/x.jpg")) == "http://localhost:8080/avatars/x.jpg"
  {
    assert !StartsWith("avatars/x.jpg", "/");
  }

  /** With the explicit origin empty and the API base
      `https://api.example.com/api/v1/`, the origin is
      `https://api.example.com`. */
  lemma ApiBaseOrigin(env: Env, origin: string)
    requires env.backendUrl == Some("") && env.apiBaseUrl == Some("https://api.example.com/api/v1/")
    requires origin == "https://api.example.com"
    ensures GetBackendUrl(env) == origin
  {
    assert env.apiBaseUrl.value == origin + ApiSuffixSlash;
    StripApiSuffixRemovesOneSuffix(env.apiBaseUrl.value);
  }

  /** Under the same settings `/images/a.png` is appended to that origin as
      is, with no second `/`. */
  lemma ApiBaseExample(env: Env, origin: string, p: string)
    requires env.backendUrl == Some("") && env.apiBaseUrl == Some("https://api.example.com/api/v1/")
    requires origin == "https://api.example.com" && p == "/images/a.png"
    ensures GetFileUrl(env, Some(p)) == origin + p
  {
    ApiBaseOrigin(env, origin);
    assert !StartsWith(p, "http://") by { assert p[0] != "http://"[0]; }
    assert !StartsWith(p, "https://") by { assert p[0] != "https://"[0]; }
    assert StartsWith(p, "/");
  }
}
