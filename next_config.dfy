/** The Next.js configuration's policy builder `cspHeader` and its `headers`
    rule: the template chosen from the environment, the raw multi-line policy
    text, and the single header rule that sends it, line feeds removed, on
    every route. */
module NextConfig {
  import opened Strings
  import opened CspPolicy

  datatype Option<T> = None | Some(value: T)

  /** The two environment variables the policy depends on; `None` when unset. */
  datatype Env = Env(vercelEnv: Option<string>, nodeEnv: Option<string>)

  /** Report-only mode is switched on in the shipped configuration. */
  const CspReportOnly: bool := true

  /** Which template the environment selects: the preview test comes first,
      and anything else, a missing variable included, means development. */
  function ModeOf(env: Env): (m: Mode)
    ensures m == Preview <==> env.vercelEnv == Some("preview")
    ensures m == Production <==> env.vercelEnv != Some("preview") && env.nodeEnv == Some("production")
    ensures m == Development <==> env.vercelEnv != Some("preview") && env.nodeEnv != Some("production")
  {
    if env.vercelEnv == Some("preview") then Preview
    else if env.nodeEnv == Some("production") then Production
    else Development
  }

  /** The template `cspHeader` returns for this environment. */
  function Policy(env: Env, reportOnly: bool): seq<Line>
  {
    Template(ModeOf(env), reportOnly)
  }

  /** `cspHeader()`: the raw multi-line policy text. Its lines are exactly the
      rendered lines of the selected template. */
  function CspHeader(env: Env, reportOnly: bool): (r: string)
    ensures SplitLines(r) == RenderAll(Policy(env, reportOnly))
  {
    var lines := RenderAll(Policy(env, reportOnly));
    SplitLinesOfJoin(lines);
    Join(lines)
  }

  /** `cspHeader().replace(/\n/g, '')`: the header value. It has no line feed, it
      is the template's lines run together, and it is shorter than the raw text
      by one character per line break. */
  function HeaderValue(env: Env, reportOnly: bool): (r: string)
    ensures '\n' !in r
    ensures r == Concat(RenderAll(Policy(env, reportOnly)))
    ensures |r| == |CspHeader(env, reportOnly)| - (|Policy(env, reportOnly)| - 1)
  {
    var lines := RenderAll(Policy(env, reportOnly));
    StripNewlinesOfJoin(lines);
    StripNewlinesLength(Join(lines));
    JoinNewlineCount(lines);
    StripNewlines(CspHeader(env, reportOnly))
  }

  /** The header name: the report-only variant exactly when report-only mode is on. */
  function HeaderKey(reportOnly: bool): (k: string)
    ensures k == "Content-Security-Policy-Report-Only" <==> reportOnly
    ensures k == "Content-Security-Policy" <==> !reportOnly
  {
    if reportOnly then "Content-Security-Policy-Report-Only" else "Content-Security-Policy"
  }

  datatype Header = Header(key: string, value: string)

  /** A header rule: a route pattern and the headers sent on matching routes. */
  datatype Rule = Rule(source: string, headers: seq<Header>)

  /** `headers()`: one rule, for every route, carrying the policy header. */
  function Headers(env: Env, reportOnly: bool): (rules: seq<Rule>)
    ensures |rules| == 1
    ensures rules[0].source == "/(.*)"
    ensures |rules[0].headers| == 1
    ensures rules[0].headers[0].key == HeaderKey(reportOnly)
    ensures rules[0].headers[0].value == HeaderValue(env, reportOnly)
  {
    [Rule("/(.*)", [Header(HeaderKey(reportOnly), HeaderValue(env, reportOnly))])]
  }
}
