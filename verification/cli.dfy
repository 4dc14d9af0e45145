/** Start-up configuration of the importer: the `--loop` and `--save-images`
    flags and the check that `--url` carries the `page` and `per_page` query
    parameters before `_embed` is appended. The command-line parser and the
    URL parser are not modelled; their results arrive as values. */
module Cli {
  import opened Wrappers

  /** The string values the argument parser produced, `None` when absent. */
  datatype Argv = Argv(url: Option<string>, loop: Option<string>, saveImages: Option<string>)

  datatype Settings = Settings(loop: bool, saveImages: bool)

  /** Decoded query parameters of the URL, in order; a key may repeat. */
  type Query = seq<(string, string)>

  datatype ConfigError =
    | UrlRequired
    | InvalidUrl
    | PageParamsRequired(page: Option<string>, perPage: Option<string>)

  /** `toLowerCase` on one character, for the ASCII letters. */
  function LowerChar(c: char): char {
    if 'A' <= c <= 'Z' then (c as int + 32) as char else c
  }

  function ToLower(s: string): string {
    seq(|s|, i requires 0 <= i < |s| => LowerChar(s[i]))
  }

  /** `arg && arg.toLowerCase() === 'true'`: an absent or empty argument is
      falsy and disables the flag. */
  predicate FlagEnabled(arg: Option<string>) {
    arg.Some? && arg.value != "" && ToLower(arg.value) == "true"
  }

  /** Reference definition: `s` is `true` spelt with any mix of cases. */
  predicate SpellsTrue(s: string) {
    |s| == 4 && forall i :: 0 <= i < 4 ==> s[i] == "true"[i] || s[i] == "TRUE"[i]
  }

  /** A flag is on exactly when its argument is present and is some casing of
      `true`; an absent argument leaves it off. */
  lemma FlagEnabledIff(arg: Option<string>)
    ensures FlagEnabled(arg) <==> arg.Some? && SpellsTrue(arg.value)
  {
  }

  /** `WPLOOP` and `WPSAVEIMAGES`. */
  function ReadSettings(argv: Argv): (s: Settings)
    ensures s.loop <==> argv.loop.Some? && SpellsTrue(argv.loop.value)
    ensures s.saveImages <==> argv.saveImages.Some? && SpellsTrue(argv.saveImages.value)
  {
    FlagEnabledIff(argv.loop);
    FlagEnabledIff(argv.saveImages);
    Settings(FlagEnabled(argv.loop), FlagEnabled(argv.saveImages))
  }

  /** `URLSearchParams.get`: the value of the first pair with `key`. */
  function QueryGet(q: Query, key: string): (r: Option<string>)
    ensures r.Some? <==> exists i :: 0 <= i < |q| && q[i].0 == key
    ensures r.Some? ==> exists i :: 0 <= i < |q| && q[i] == (key, r.value)
                          && forall j :: 0 <= j < i ==> q[j].0 != key
    decreases |q|
  {
    if |q| == 0 then None
    else if q[0].0 == key then Some(q[0].1)
    else
      QueryGet(q[1..], key)
  }

  /** Appending a pair never changes what `get` returns for a key that was
      already present. */
  lemma {:induction false} AppendKeepsGet(q: Query, pair: (string, string), key: string)
    requires QueryGet(q, key).Some?
    ensures QueryGet(q + [pair], key) == QueryGet(q, key)
    decreases |q|
  {
    if q[0].0 != key {
      assert (q + [pair])[1..] == q[1..] + [pair];
      AppendKeepsGet(q[1..], pair, key);
    }
  }

  /** A query value counts only when present and non-empty (`!PAGE`). */
  predicate Given(v: Option<string>) {
    v.Some? && v.value != ""
  }

  /** The start-up check: a URL is required, `new URL` must accept it, then
      both `page` and `per_page` are required, and on success the query to
      fetch is the given one with `_embed=` appended. `parsed` is what the URL
      parser read from `url`, `None` when it throws on it. */
  function CheckConfig(url: Option<string>, parsed: Option<Query>): (r: Result<Query, ConfigError>)
    ensures r.Failure? <==> !Given(url) || parsed.None?
                            || !Given(QueryGet(parsed.value, "page"))
                            || !Given(QueryGet(parsed.value, "per_page"))
    ensures !Given(url) ==> r == Failure(UrlRequired)
    ensures Given(url) && parsed.None? ==> r == Failure(InvalidUrl)
    ensures r.Failure? && Given(url) && parsed.Some? ==>
              r.error == PageParamsRequired(QueryGet(parsed.value, "page"),
                                            QueryGet(parsed.value, "per_page"))
    ensures r.Success? ==> |r.value| == |parsed.value| + 1 && r.value[..|parsed.value|] == parsed.value
                           && r.value[|parsed.value|] == ("_embed", "")
    ensures r.Success? ==> QueryGet(r.value, "page") == QueryGet(parsed.value, "page")
                           && QueryGet(r.value, "per_page") == QueryGet(parsed.value, "per_page")
                           && QueryGet(r.value, "_embed").Some?
  {
    if !Given(url) then Failure(UrlRequired)
    else if parsed.None? then Failure(InvalidUrl)
    else
      var query := parsed.value;
      var page, perPage := QueryGet(query, "page"), QueryGet(query, "per_page");
      if !Given(page) || !Given(perPage) then Failure(PageParamsRequired(page, perPage))
      else
        var q := query + [("_embed", "")];
        AppendKeepsGet(query, ("_embed", ""), "page");
        AppendKeepsGet(query, ("_embed", ""), "per_page");
        assert q[|query|].0 == "_embed";
        Success(q)
  }
}
