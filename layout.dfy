// The root layout's `--base` CSS variable: the deployment base path with a
// trailing slash.
module Layout {
  import opened Wrappers

  predicate EndsWithSlash(s: string) {
    |s| > 0 && s[|s| - 1] == '/'
  }

  /** Appends a `/` unless the base already ends with one. */
  function NormaliseBase(base: string): (r: string)
    ensures EndsWithSlash(r)
    ensures EndsWithSlash(base) ==> r == base
    ensures !EndsWithSlash(base) ==> r == base + "/"
  {
    if EndsWithSlash(base) then base else base + "/"
  }

  /** Normalising twice is normalising once. */
  lemma NormaliseIdempotent(base: string)
    ensures NormaliseBase(NormaliseBase(base)) == NormaliseBase(base)
  {
  }

  /** The base is kept as a prefix and at most one character is added. */
  lemma NormaliseExtends(base: string)
    ensures var r := NormaliseBase(base);
      r[..|base|] == base && |base| <= |r| <= |base| + 1
  {
  }

  /** The environment variable, with an unset variable read as empty. */
  function BaseVar(env: Option<string>): string {
    match env
    case None => ""
    case Some(s) => s
  }

  /** The style rule injected into the page head. */
  function BaseRule(env: Option<string>): (rule: string)
    ensures rule == ":root{--base:" + NormaliseBase(BaseVar(env)) + " }"
  {
    var base := BaseVar(env);
    ":root{--base:" + (if EndsWithSlash(base) then base else base + "/") + " }"
  }

  /** Without a base path the variable is the site root. */
  lemma UnsetIsRoot(env: Option<string>)
    requires env.None? || env == Some("")
    ensures NormaliseBase(BaseVar(env)) == "/"
    ensures BaseRule(env) == ":root{--base:/ }"
  {
  }
}
