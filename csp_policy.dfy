/** The three Content-Security-Policy templates of the blog's Next.js
    configuration, as lines of directives, and the text each line stands for. */
module CspPolicy {

  /** The three policy templates. */
  datatype Mode = Preview | Production | Development

  /** The directive names the templates use. */
  datatype Name =
    | DefaultSrc | MediaSrc | ObjectSrc | BaseUri | FormAction | FrameAncestors
    | BlockAllMixedContent | UpgradeInsecureRequests
    | FontSrc | StyleSrc | ScriptSrc | ConnectSrc | ImgSrc | FrameSrc

  /** The source expressions the templates use: three keywords, the `data:`
      scheme, and the hosts of Vercel's preview tooling and analytics. */
  datatype Source =
    | Self | NoneKeyword | UnsafeInline | Data
    | VercelLive | VercelLiveFonts | VercelInsights | PusherHttps | PusherWss

  /** One policy directive, written `name src1 src2 ...;`. */
  datatype Directive = Directive(name: Name, sources: seq<Source>)

  /** One line of a template: a directive, or a line holding no directive. */
  datatype Line = Blank | Dir(directive: Directive)

  /** The `upgradeInsecure` slot of the shared block: the source-less
      `upgrade-insecure-requests` directive, or nothing in report-only mode. */
  function UpgradeInsecure(reportOnly: bool): (l: Line)
    ensures l.Dir? <==> !reportOnly
    ensures l.Dir? ==> l.directive == Directive(UpgradeInsecureRequests, [])
  {
    if reportOnly then Blank else Dir(Directive(UpgradeInsecureRequests, []))
  }

  /** The default directives every template starts with, in their order. */
  const DefaultDirectives: seq<Directive> := [
    Directive(DefaultSrc, [NoneKeyword]),
    Directive(MediaSrc, [Self]),
    Directive(ObjectSrc, [NoneKeyword]),
    Directive(BaseUri, [NoneKeyword]),
    Directive(FormAction, [NoneKeyword]),
    Directive(FrameAncestors, [NoneKeyword]),
    Directive(BlockAllMixedContent, [])
  ]

  /** The shared block `defaultsCSPHeaders`, as lines: an empty line, the
      default directives in order, the `upgradeInsecure` slot, and an empty
      line. */
  function Defaults(reportOnly: bool): (r: seq<Line>)
    ensures |r| == |DefaultDirectives| + 3
    ensures r[0] == Blank && r[|r| - 1] == Blank
    ensures forall k :: 0 <= k < |DefaultDirectives| ==> r[k + 1] == Dir(DefaultDirectives[k])
    ensures r[|r| - 2] == UpgradeInsecure(reportOnly)
  {
    [Blank]
    + seq(|DefaultDirectives|, k requires 0 <= k < |DefaultDirectives| => Dir(DefaultDirectives[k]))
    + [UpgradeInsecure(reportOnly), Blank]
  }

  /** The names of the per-template directives, in the order every template lists them. */
  const ModeOrder: seq<Name> := [FontSrc, StyleSrc, ScriptSrc, ConnectSrc, ImgSrc, FrameSrc]

  /** The directives that follow the shared block, per template. Every template
      lists the same six names in the same order; only the sources differ. */
  function ModeDirectives(mode: Mode): (r: seq<Line>)
    ensures |r| == |ModeOrder|
    ensures forall i :: 0 <= i < |r| ==> r[i].Dir? && r[i].directive.name == ModeOrder[i]
  {
    match mode
    case Preview => [
      Dir(Directive(FontSrc, [Self, VercelLive])),
      Dir(Directive(StyleSrc, [Self, UnsafeInline, VercelLiveFonts])),
      Dir(Directive(ScriptSrc, [Self, UnsafeInline, VercelLive])),
      Dir(Directive(ConnectSrc, [Self, VercelLive, VercelInsights, PusherHttps, PusherWss])),
      Dir(Directive(ImgSrc, [Self, VercelLive])),
      Dir(Directive(FrameSrc, [Self, VercelLive]))]
    case Production => [
      Dir(Directive(FontSrc, [Self])),
      Dir(Directive(StyleSrc, [Self, UnsafeInline])),
      Dir(Directive(ScriptSrc, [Self])),
      Dir(Directive(ConnectSrc, [Self, VercelInsights])),
      Dir(Directive(ImgSrc, [Self])),
      Dir(Directive(FrameSrc, [NoneKeyword]))]
    case Development => [
      Dir(Directive(FontSrc, [Self])),
      Dir(Directive(StyleSrc, [Self, UnsafeInline])),
      Dir(Directive(ScriptSrc, [Self])),
      Dir(Directive(ConnectSrc, [Self])),
      Dir(Directive(ImgSrc, [Self, Data])),
      Dir(Directive(FrameSrc, [NoneKeyword]))]
  }

  /** A whole template as lines: an opening line feed, the shared block, the
      template's own directives, and a closing line. Line 9 is the
      `upgradeInsecure` slot, the default directives sit on lines 2 to 8 and the
      template's own on lines 11 to 16. */
  function Template(mode: Mode, reportOnly: bool): (r: seq<Line>)
    ensures |r| == 18
    ensures r[0] == Blank && r[1] == Blank && r[10] == Blank && r[17] == Blank
    ensures forall k :: 0 <= k < |DefaultDirectives| ==> r[k + 2] == Dir(DefaultDirectives[k])
    ensures r[9] == UpgradeInsecure(reportOnly)
    ensures forall k :: 0 <= k < |ModeOrder| ==> r[k + 11] == ModeDirectives(mode)[k]
  {
    [Blank] + Defaults(reportOnly) + ModeDirectives(mode) + [Blank]
  }

  // ---------------------------------------------------------------------------
  // Text

  /** A character that may appear in a policy line: anything but a line feed. */
  type LineChar = c: char | c != '\n'

  /** The text of one policy line, or of a piece of one. */
  type Token = seq<LineChar>

  function NameText(name: Name): Token
  {
    match name
    case DefaultSrc => "default-src"
    case MediaSrc => "media-src"
    case ObjectSrc => "object-src"
    case BaseUri => "base-uri"
    case FormAction => "form-action"
    case FrameAncestors => "frame-ancestors"
    case BlockAllMixedContent => "block-all-mixed-content"
    case UpgradeInsecureRequests => "upgrade-insecure-requests"
    case FontSrc => "font-src"
    case StyleSrc => "style-src"
    case ScriptSrc => "script-src"
    case ConnectSrc => "connect-src"
    case ImgSrc => "img-src"
    case FrameSrc => "frame-src"
  }

  function SourceText(source: Source): Token
  {
    match source
    case Self => "'self'"
    case NoneKeyword => "'none'"
    case UnsafeInline => "'unsafe-inline'"
    case Data => "data:"
    case VercelLive => "https://vercel.live/"
    case VercelLiveFonts => "https://vercel.live/fonts"
    case VercelInsights => "https://vitals.vercel-insights.com"
    case PusherHttps => "https://*.pusher.com/"
    case PusherWss => "wss://*.pusher.com/"
  }

  /** Each source preceded by one space. */
  function SourceList(sources: seq<Source>): Token
  {
    if sources == [] then "" else " " + SourceText(sources[0]) + SourceList(sources[1..])
  }

  /** The text of one line. */
  function Render(line: Line): Token
  {
    match line
    case Blank => ""
    case Dir(d) => NameText(d.name) + SourceList(d.sources) + ";"
  }

  function RenderAll(lines: seq<Line>): (r: seq<string>)
    ensures |r| == |lines|
    ensures forall i :: 0 <= i < |lines| ==> r[i] == Render(lines[i])
  {
    seq(|lines|, i requires 0 <= i < |lines| => Render(lines[i]))
  }

  // ---------------------------------------------------------------------------
  // Which directives a list of lines declares

  /** No two directives among `lines` have the same name. */
  predicate UniqueNames(lines: seq<Line>)
  {
    forall i, j :: 0 <= i < j < |lines| && lines[i].Dir? && lines[j].Dir? ==>
      lines[i].directive.name != lines[j].directive.name
  }

  /** Every directive among `lines` has one of `names`. */
  predicate NamesWithin(lines: seq<Line>, names: set<Name>)
  {
    forall l :: l in lines && l.Dir? ==> l.directive.name in names
  }

  /** `d` is among `lines`, and no other directive there has its name. */
  predicate Declares(lines: seq<Line>, d: Directive)
  {
    Dir(d) in lines && forall l :: l in lines && l.Dir? && l.directive.name == d.name ==> l == Dir(d)
  }

  /** No directive among `lines` has the name `name`. */
  predicate Lacks(lines: seq<Line>, name: Name)
  {
    forall l :: l in lines && l.Dir? ==> l.directive.name != name
  }

  /** The names that the shared block can hold. */
  const DefaultNames: set<Name> :=
    {DefaultSrc, MediaSrc, ObjectSrc, BaseUri, FormAction, FrameAncestors, BlockAllMixedContent, UpgradeInsecureRequests}

  /** The names of the per-template directives. */
  const ModeNames: set<Name> := {FontSrc, StyleSrc, ScriptSrc, ConnectSrc, ImgSrc, FrameSrc}
}
