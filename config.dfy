/**
 * The API, web and login base URLs (internal/config/config.go): the normalisation
 * applied to an override, the three stored bases with their guarded setters, and the
 * start-up pass that applies the environment overrides. The environment is read by
 * the caller; `Init` receives the three variables' values.
 */
module Config {
  import opened GoStrings

  const DefaultAPIBase: string := "https://api.koushare.com"
  const DefaultWebBase: string := "https://www.koushare.com"
  const DefaultLoginBase: string := "https://login.koushare.com"

  /** Starts with `http://` or `https://`. */
  predicate HasScheme(s: string) {
    "http://" <= s || "https://" <= s
  }

  /** `normalizeBaseURL`: trim, give up on blank, strip trailing `/`, default the scheme to https. */
  function NormalizeBaseURL(value: string): (r: string)
    ensures r == "" <==> AllSpace(value)
    ensures r != "" ==> HasScheme(r)
    ensures r != "" ==> var t := TrimRightChar(TrimSpace(value), '/');
      if HasScheme(t) then r == t else r == "https://" + t
  {
    var v := TrimSpace(value);
    if v == "" then ""
    else
      var t := TrimRightChar(v, '/');
      if HasScheme(t) then t else "https://" + t
  }

  /** Trimming first changes nothing: the function trims itself. */
  lemma NormalizeIgnoresSurroundingSpace(value: string)
    ensures NormalizeBaseURL(TrimSpace(value)) == NormalizeBaseURL(value)
  {
    TrimSpaceIdempotent(value);
  }

  /** The blank test comes before slash stripping: a run of slashes becomes the bare `https://`. */
  lemma NormalizeOnlySlashes(value: string)
    requires value != []
    requires forall i :: 0 <= i < |value| ==> value[i] == '/'
    ensures NormalizeBaseURL(value) == "https://"
  {
    assert !IsSpace(value[0]) && !IsSpace(value[|value| - 1]);
    TrimSpaceOfTrimmed(value);
    var t := TrimRightChar(value, '/');
    assert forall i :: 0 <= i < |t| ==> t[i] == value[i];
  }

  /** Normalising is not idempotent: `https://` itself is not a recognised scheme prefix once stripped. */
  lemma NormalizeNotIdempotent()
    ensures NormalizeBaseURL("/") == "https://"
    ensures NormalizeBaseURL("https://") == "https://https:"
  {
    NormalizeOnlySlashes("/");
    var s := "https://";
    TrimSpaceOfTrimmed(s);
    assert TrimRightChar(s, '/') == "https:" by {
      assert s[..|s| - 1] == "https:/";
      assert s[..|s| - 1][..|s| - 2] == "https:";
    }
    assert !HasScheme("https:") by {
      assert "https:"[..] == "https:";
      assert |"https:"| < |"http://"|;
    }
  }

  /**
   * A value with a scheme whose last character is neither `/` nor white space is left
   * alone; every other kind of value is changed.
   */
  lemma NormalizeFixpoint(value: string)
    requires HasScheme(value)
    requires value[|value| - 1] != '/' && !IsSpace(value[|value| - 1]) && !IsSpace(value[0])
    ensures NormalizeBaseURL(value) == value
  {
    TrimSpaceOfTrimmed(value);
  }

  /** The three bases the API clients build their requests on. */
  class BaseURLs {
    var apiBase: string
    var webBase: string
    var loginBase: string

    /** Every stored base starts with a scheme. */
    predicate Valid()
      reads this
    {
      HasScheme(apiBase) && HasScheme(webBase) && HasScheme(loginBase)
    }

    /** The package-level defaults, before `init` runs. */
    constructor ()
      ensures apiBase == DefaultAPIBase && webBase == DefaultWebBase && loginBase == DefaultLoginBase
      ensures Valid()
    {
      apiBase := DefaultAPIBase;
      webBase := DefaultWebBase;
      loginBase := DefaultLoginBase;
    }

    /** `APIBaseURL`: the stored API base, which always carries a scheme. */
    function APIBaseURL(): (r: string)
      requires Valid()
      reads this
      ensures HasScheme(r)
    {
      apiBase
    }

    /** `WebBaseURL`: the stored web base, which always carries a scheme. */
    function WebBaseURL(): (r: string)
      requires Valid()
      reads this
      ensures HasScheme(r)
    {
      webBase
    }

    /** `LoginBaseURL`: the stored login base, which always carries a scheme. */
    function LoginBaseURL(): (r: string)
      requires Valid()
      reads this
      ensures HasScheme(r)
    {
      loginBase
    }

    /** `SetAPIBaseURL`: store the normalised value unless it is empty. */
    method SetAPIBaseURL(value: string)
      requires Valid()
      modifies this
      ensures Valid()
      ensures APIBaseURL() == if AllSpace(value) then old(APIBaseURL()) else NormalizeBaseURL(value)
      ensures WebBaseURL() == old(WebBaseURL()) && LoginBaseURL() == old(LoginBaseURL())
    {
      var v := NormalizeBaseURL(value);
      if v != "" {
        apiBase := v;
      }
    }

    /** `SetWebBaseURL`: store the normalised value unless it is empty. */
    method SetWebBaseURL(value: string)
      requires Valid()
      modifies this
      ensures Valid()
      ensures WebBaseURL() == if AllSpace(value) then old(WebBaseURL()) else NormalizeBaseURL(value)
      ensures APIBaseURL() == old(APIBaseURL()) && LoginBaseURL() == old(LoginBaseURL())
    {
      var v := NormalizeBaseURL(value);
      if v != "" {
        webBase := v;
      }
    }

    /** `SetLoginBaseURL`: store the normalised value unless it is empty. */
    method SetLoginBaseURL(value: string)
      requires Valid()
      modifies this
      ensures Valid()
      ensures LoginBaseURL() == if AllSpace(value) then old(LoginBaseURL()) else NormalizeBaseURL(value)
      ensures APIBaseURL() == old(APIBaseURL()) && WebBaseURL() == old(WebBaseURL())
    {
      var v := NormalizeBaseURL(value);
      if v != "" {
        loginBase := v;
      }
    }

    /**
     * `init`: apply `KOUSHARE_API_BASE`, `KOUSHARE_WEB_BASE` and `KOUSHARE_LOGIN_BASE`,
     * each only when it is not blank.
     */
    method Init(apiEnv: string, webEnv: string, loginEnv: string)
      requires Valid()
      modifies this
      ensures Valid()
      ensures APIBaseURL() == Override(old(APIBaseURL()), apiEnv)
      ensures WebBaseURL() == Override(old(WebBaseURL()), webEnv)
      ensures LoginBaseURL() == Override(old(LoginBaseURL()), loginEnv)
    {
      var v := TrimSpace(apiEnv);
      if v != "" {
        NormalizeIgnoresSurroundingSpace(apiEnv);
        SetAPIBaseURL(v);
      }
      v := TrimSpace(webEnv);
      if v != "" {
        NormalizeIgnoresSurroundingSpace(webEnv);
        SetWebBaseURL(v);
      }
      v := TrimSpace(loginEnv);
      if v != "" {
        NormalizeIgnoresSurroundingSpace(loginEnv);
        SetLoginBaseURL(v);
      }
    }
  }

  /** The base in force after an environment value `env` is applied over `current`. */
  function Override(current: string, env: string): (r: string)
    ensures r == current || r == NormalizeBaseURL(env)
    ensures HasScheme(current) ==> HasScheme(r)
    ensures !AllSpace(env) ==> HasScheme(r) && r == NormalizeBaseURL(TrimSpace(env))
  {
    if AllSpace(env) then current else NormalizeBaseURL(env)
  }
}
