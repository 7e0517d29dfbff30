# Content-Security-Policy configuration of a Next.js blog

This project models the blog's `next.config.mjs`. That file does two things:

- `cspHeader` builds a Content-Security-Policy. It takes one of three templates: preview, production or development.
- The `headers` hook sends that policy on every route. It removes the policy's line feeds first.

A report-only switch changes two things in the policy and the header:

- the `upgrade-insecure-requests` directive, which report-only mode leaves out;
- the header name, which becomes `Content-Security-Policy-Report-Only` in report-only mode.

The model has four modules:

- `Strings` holds the string operations the configuration relies on:
  - the global line-feed replacement `replace(/\n/g, '')` (`StripNewlines`);
  - the line structure of a multi-line template literal (`Join`, `SplitLines`, `Concat`).
- `CspPolicy` holds the templates as data.
  - A template is a sequence of lines. Each line is a directive or an empty line.
  - Directive names and source expressions are enumerations. `Render` maps each line to its exact text.
  - Its type, `seq<LineChar>`, excludes the line feed.
- `NextConfig` covers template selection from the two environment variables (`ModeOf`), then:
  - `CspHeader`, the raw text;
  - `HeaderValue`, the text without line feeds;
  - `HeaderKey` and `Headers`, the header rule.
- `CspProperties` holds what each environment's policy grants and what every policy shares. It also shows how the report-only switch appears in the policy and in its text.

The environment is an explicit parameter: `VERCEL_ENV` and `NODE_ENV` are each `None` when unset. The report-only switch is also a parameter, so both settings are covered. The shipped value, `true`, is the constant `NextConfig.CspReportOnly`.

## Model

| member | source | states |
|---|---|---|
| Strings.StripNewlines | next.config.mjs:77 | The result of the global line-feed replacement holds no line feed and is no longer than its input. |
| Strings.StripNewlinesLength | next.config.mjs:77 | The result is shorter than the input by exactly the number of line feeds in it. |
| Strings.StripNewlinesFixesNewlineFree | next.config.mjs:77 | A string without line feeds passes through unchanged. |
| Strings.StripNewlinesIdempotent | next.config.mjs:77 | Applying the replacement twice is the same as applying it once. |
| Strings.StripNewlinesAppend | next.config.mjs:77 | The replacement distributes over concatenation. |
| Strings.StripNewlinesKeepsOtherChars | next.config.mjs:77 | Every character other than a line feed occurs in the result exactly as often as in the input. |
| Strings.StripNewlinesKeepsOrder | next.config.mjs:77 | The result is a subsequence of the input, so surviving characters keep their order. |
| Strings.JoinNewlineCount | next.config.mjs:26-34 | A template literal written as n newline-free lines holds exactly n - 1 line feeds. |
| Strings.StripNewlinesOfJoin | next.config.mjs:77 | Removing the line feeds from the joined lines leaves the lines run together. |
| Strings.SplitLinesOfJoin | next.config.mjs:26-34 | Splitting joined newline-free lines at the line feeds gives the lines back. |
| Strings.JoinOfSplitLines | next.config.mjs:26-34 | Joining the lines of any string gives the string back. |
| Strings.ConcatContainsEach | next.config.mjs:77 | Each line appears unbroken inside the lines run together. |
| CspPolicy.UpgradeInsecure | next.config.mjs:7 | The upgrade slot holds a directive exactly when report-only mode is off. That directive is `upgrade-insecure-requests` with no sources. |
| CspPolicy.Defaults | next.config.mjs:9-18 | The shared block is an empty line, then the seven default directives in source order, then the upgrade slot, then an empty line. |
| CspPolicy.ModeDirectives | next.config.mjs:28-33 | Every template's own block lists font-src, style-src, script-src, connect-src, img-src and frame-src, always in that order. The sources are those of the template's literal (preview at lines 28-33, production at 42-47, development at 54-59). |
| CspPolicy.Template | next.config.mjs:26-34 | A template has 18 lines, so its literal has 17 line breaks. Lines 0, 1, 10 and 17 are empty. Lines 2-8 hold the default directives, line 9 is the upgrade slot, and lines 11-16 hold the template's own directives. The same layout holds for the literals at lines 40-48 and 52-60. |
| NextConfig.ModeOf | next.config.mjs:25-60 | Preview is chosen exactly when `VERCEL_ENV` is "preview". Production is chosen exactly when it is not and `NODE_ENV` is "production". Development is chosen in every other case, unset variables included. `PreviewPolicy`, `ProductionPolicy` and `DevelopmentPolicy` give what each choice then declares. |
| NextConfig.CspHeader | next.config.mjs:5-61 | The raw policy text's lines are exactly the rendered lines of the template the environment selects. |
| NextConfig.HeaderValue | next.config.mjs:77 | The header value has no line feed. It equals the selected template's lines run together. It is shorter than the raw text by one character per line break. |
| NextConfig.HeaderKey | next.config.mjs:76 | The header is `Content-Security-Policy-Report-Only` exactly when report-only mode is on, and `Content-Security-Policy` exactly when it is off. |
| NextConfig.Headers | next.config.mjs:70-81 | There is exactly one rule, for the route pattern `/(.*)`, carrying exactly one header. Its key is the chosen header name and its value is the policy without line feeds. |
| CspProperties.TemplateUniqueNames | next.config.mjs:9-60 | No template, in either report-only setting, names a directive twice. |
| CspProperties.PreviewPolicy | next.config.mjs:25-35 | With `VERCEL_ENV` = "preview", the preview template is chosen whatever `NODE_ENV` holds, and the header value does not depend on `NODE_ENV`. The policy declares, as the only directive of each name: script-src 'self' 'unsafe-inline' https://vercel.live/; style-src with 'unsafe-inline' and the Vercel fonts host; connect-src with the Vercel live, analytics and Pusher hosts; frame-src 'self' https://vercel.live/. |
| CspProperties.ProductionPolicy | next.config.mjs:39-49 | Outside preview, with `NODE_ENV` = "production", the production template is chosen. Its only script-src is 'self', with no 'unsafe-inline'. Its only connect-src is 'self' https://vitals.vercel-insights.com, and its only frame-src is 'none'. |
| CspProperties.ProductionHeaderValue | next.config.mjs:44 | In production, the text `script-src 'self';` appears in the header value. |
| CspProperties.DevelopmentPolicy | next.config.mjs:52-60 | When neither condition holds (unset variables included), the development template is chosen. Its only img-src is 'self' data:, its only connect-src is 'self', and its only frame-src is 'none'. |
| CspProperties.PolicyLineInHeaderValue | next.config.mjs:77 | Every line of the selected policy appears unbroken in the header value. |
| CspProperties.DefaultsInEveryPolicy | next.config.mjs:9-18 | In every environment and setting, the policy declares each shared directive as the only one of its name, and its text appears in the header value. The shared directives are default-src, object-src, base-uri, form-action and frame-ancestors 'none', media-src 'self', and block-all-mixed-content. |
| CspProperties.UpgradeIffNotReportOnly | next.config.mjs:7 | The policy holds `upgrade-insecure-requests` exactly when report-only mode is off. In report-only mode, no directive of that name is present. |
| CspProperties.RenderedUpgrade | next.config.mjs:7 | The text `upgrade-insecure-requests;` renders exactly one line: the source-less upgrade directive. |
| CspProperties.UpgradeLineIffNotReportOnly | next.config.mjs:7-18 | The raw policy text has an `upgrade-insecure-requests;` line exactly when report-only mode is off. In that case the header value holds that text too. |
| CspProperties.ShippedConfiguration | next.config.mjs:3 | With report-only mode on, as shipped (the constant `NextConfig.CspReportOnly`), the header is `Content-Security-Policy-Report-Only`. The policy then has no `upgrade-insecure-requests` directive, and its text has no such line. |

## Left out

- NextConfig.HeaderValue: indentation is not modelled. Each template literal opens with a line feed, and every directive line after it is indented. Those spaces stay in the real header value. In the model, each line is its directive text alone, and whitespace-only lines are empty. The sequence of directives and their text is the same.
- NextConfig.ModeOf: the model does not cover `process.env` being undefined at runtime. The environment is given as two optional strings. In that case the source would not fall back to development. Line 25 reads `VERCEL_ENV` through `?.`, but line 39 reads `process.env.NODE_ENV` without it, so evaluating it would throw a `TypeError`, and the model has no such error outcome.
- The `async` nature of `headers` is not modelled. The rule list is returned directly.
- `poweredByHeader: false` and the empty `experimental` block are not modelled. They do not affect the policy.
- How browsers enforce or report the policy is outside the model.
- The source comment before the development template mentions enabling `unsafe-eval` for hot reload. The code has no `unsafe-eval` anywhere, and the model follows the code. The development script-src is `'self'` only.
- Directive names and source expressions are enumerations. `CspPolicy.NameText` and `CspPolicy.SourceText` give their exact text. Inputs beyond the ones the templates use are not representable.
- CspProperties.UpgradeLineIffNotReportOnly: the "only when report-only mode is off" direction is proved for the lines of the raw text. For the header value, only the "is present when off" direction is proved.
