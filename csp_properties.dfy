/** What each environment's policy allows, what every policy shares, and how
    the report-only flag shows in the policy and in the header. */
module CspProperties {
  import opened Strings
  import opened CspPolicy
  import opened NextConfig

  // ---------------------------------------------------------------------------
  // Every template names each directive at most once

  /** Two pieces whose directive names come from disjoint sets keep names unique. */
  lemma UniqueNamesAppend(a: seq<Line>, b: seq<Line>, namesA: set<Name>, namesB: set<Name>)
    requires UniqueNames(a) && UniqueNames(b)
    requires NamesWithin(a, namesA) && NamesWithin(b, namesB) && namesA !! namesB
    ensures UniqueNames(a + b)
    ensures NamesWithin(a + b, namesA + namesB)
  {
    var c := a + b;
    forall i, j | 0 <= i < j < |c| && c[i].Dir? && c[j].Dir?
      ensures c[i].directive.name != c[j].directive.name
    {
      if j < |a| {
        assert c[i] == a[i] && c[j] == a[j];
      } else if i >= |a| {
        assert c[i] == b[i - |a|] && c[j] == b[j - |a|];
      } else {
        assert c[i] == a[i] && c[j] == b[j - |a|];
        assert a[i] in a && b[j - |a|] in b;
      }
    }
    assert forall l :: l in c <==> l in a || l in b;
  }

  lemma DefaultDirectivesNames()
    ensures forall i, j :: 0 <= i < j < |DefaultDirectives| ==> DefaultDirectives[i].name != DefaultDirectives[j].name
    ensures forall i :: 0 <= i < |DefaultDirectives| ==> DefaultDirectives[i].name in DefaultNames - {UpgradeInsecureRequests}
  {
  }

  lemma DefaultsNames(reportOnly: bool)
    ensures UniqueNames(Defaults(reportOnly))
    ensures NamesWithin(Defaults(reportOnly), DefaultNames)
  {
    var r := Defaults(reportOnly);
    DefaultDirectivesNames();
    forall i, j | 0 <= i < j < |r| && r[i].Dir? && r[j].Dir?
      ensures r[i].directive.name != r[j].directive.name
    {
      assert r[i] == Dir(DefaultDirectives[i - 1]);
    }
    forall l | l in r && l.Dir? ensures l.directive.name in DefaultNames {
      var i :| 0 <= i < |r| && r[i] == l;
    }
  }

  lemma ModeNamesUnique(mode: Mode)
    ensures UniqueNames(ModeDirectives(mode))
    ensures NamesWithin(ModeDirectives(mode), ModeNames)
  {
  }

  lemma NameSetsDisjoint()
    ensures DefaultNames !! ModeNames
  {
  }

  /** No template names a directive twice. */
  lemma TemplateUniqueNames(mode: Mode, reportOnly: bool)
    ensures UniqueNames(Template(mode, reportOnly))
  {
    var blank: seq<Line> := [Blank];
    var defaults := Defaults(reportOnly);
    var own := ModeDirectives(mode);
    DefaultsNames(reportOnly);
    ModeNamesUnique(mode);
    NameSetsDisjoint();
    UniqueNamesAppend(blank, defaults, {}, DefaultNames);
    UniqueNamesAppend(blank + defaults, own, DefaultNames, ModeNames);
    UniqueNamesAppend(blank + defaults + own, blank, DefaultNames + ModeNames, {});
  }

  /** In a list of lines with unique names, a directive that is present is the
      only one of its name. */
  lemma UniqueDeclares(lines: seq<Line>, d: Directive)
    requires UniqueNames(lines) && Dir(d) in lines
    ensures Declares(lines, d)
  {
    var k :| 0 <= k < |lines| && lines[k] == Dir(d);
    forall l | l in lines && l.Dir? && l.directive.name == d.name ensures l == Dir(d) {
      var j :| 0 <= j < |lines| && lines[j] == l;
      assert j == k;
    }
  }

  /** Directives whose names all lie outside a set lack every name in it. */
  lemma NamesWithinLacks(lines: seq<Line>, names: set<Name>, name: Name)
    requires NamesWithin(lines, names) && name !in names
    ensures Lacks(lines, name)
  {
  }

  /** Each of the template's own directives is the only one of its name in the whole template. */
  lemma ModeDirectiveDeclared(mode: Mode, reportOnly: bool, d: Directive)
    requires Dir(d) in ModeDirectives(mode)
    ensures Declares(Template(mode, reportOnly), d)
  {
    assert Template(mode, reportOnly) == ([Blank] + Defaults(reportOnly)) + ModeDirectives(mode) + [Blank];
    TemplateUniqueNames(mode, reportOnly);
    UniqueDeclares(Template(mode, reportOnly), d);
  }

  // ---------------------------------------------------------------------------
  // What each environment gets

  /** With `VERCEL_ENV` set to "preview" the preview template is used whatever
      `NODE_ENV` says: inline scripts and styles are allowed, and Vercel's
      live-feedback hosts, its analytics endpoint and Pusher's sockets are
      whitelisted. */
  lemma PreviewPolicy(vercelEnv: Option<string>, nodeEnv: Option<string>, otherNodeEnv: Option<string>, reportOnly: bool)
    requires vercelEnv == Some("preview")
    ensures ModeOf(Env(vercelEnv, nodeEnv)) == Preview
    ensures HeaderValue(Env(vercelEnv, nodeEnv), reportOnly) == HeaderValue(Env(vercelEnv, otherNodeEnv), reportOnly)
    ensures Declares(Policy(Env(vercelEnv, nodeEnv), reportOnly), Directive(ScriptSrc, [Self, UnsafeInline, VercelLive]))
    ensures Declares(Policy(Env(vercelEnv, nodeEnv), reportOnly), Directive(StyleSrc, [Self, UnsafeInline, VercelLiveFonts]))
    ensures Declares(Policy(Env(vercelEnv, nodeEnv), reportOnly),
                     Directive(ConnectSrc, [Self, VercelLive, VercelInsights, PusherHttps, PusherWss]))
    ensures Declares(Policy(Env(vercelEnv, nodeEnv), reportOnly), Directive(FrameSrc, [Self, VercelLive]))
  {
    var own := ModeDirectives(Preview);
    assert own[1] == Dir(Directive(StyleSrc, [Self, UnsafeInline, VercelLiveFonts]));
    assert own[2] == Dir(Directive(ScriptSrc, [Self, UnsafeInline, VercelLive]));
    assert own[3] == Dir(Directive(ConnectSrc, [Self, VercelLive, VercelInsights, PusherHttps, PusherWss]));
    assert own[5] == Dir(Directive(FrameSrc, [Self, VercelLive]));
    ModeDirectiveDeclared(Preview, reportOnly, own[1].directive);
    ModeDirectiveDeclared(Preview, reportOnly, own[2].directive);
    ModeDirectiveDeclared(Preview, reportOnly, own[3].directive);
    ModeDirectiveDeclared(Preview, reportOnly, own[5].directive);
  }

  /** Outside preview, `NODE_ENV` set to "production" selects the production
      template: scripts only from the site itself (no inline script), connections
      only to the site and Vercel's analytics endpoint, and no frames. */
  lemma ProductionPolicy(env: Env, reportOnly: bool)
    requires env.vercelEnv != Some("preview") && env.nodeEnv == Some("production")
    ensures ModeOf(env) == Production
    ensures Declares(Policy(env, reportOnly), Directive(ScriptSrc, [Self]))
    ensures forall l :: l in Policy(env, reportOnly) && l.Dir? && l.directive.name == ScriptSrc ==>
              UnsafeInline !in l.directive.sources
    ensures Declares(Policy(env, reportOnly), Directive(ConnectSrc, [Self, VercelInsights]))
    ensures Declares(Policy(env, reportOnly), Directive(FrameSrc, [NoneKeyword]))
  {
    var own := ModeDirectives(Production);
    assert own[2] == Dir(Directive(ScriptSrc, [Self]));
    assert own[3] == Dir(Directive(ConnectSrc, [Self, VercelInsights]));
    assert own[5] == Dir(Directive(FrameSrc, [NoneKeyword]));
    ModeDirectiveDeclared(Production, reportOnly, own[2].directive);
    ModeDirectiveDeclared(Production, reportOnly, own[3].directive);
    ModeDirectiveDeclared(Production, reportOnly, own[5].directive);
  }

  /** In production the header value carries the script directive that admits
      only the site's own scripts. */
  lemma ProductionHeaderValue(env: Env, reportOnly: bool)
    requires env.vercelEnv != Some("preview") && env.nodeEnv == Some("production")
    ensures IsInfix("script-src 'self';", HeaderValue(env, reportOnly))
  {
    ScriptSelfText();
    PolicyLineInHeaderValue(env, reportOnly, 13);
  }

  lemma ScriptSelfText()
    ensures Render(Dir(Directive(ScriptSrc, [Self]))) == "script-src 'self';"
  {
    assert SourceList([Self]) == " 'self'" + SourceList([]);
  }

  /** Neither preview nor production, unset variables included, selects the
      development template: images also from `data:` URIs, connections only to
      the site, and no frames. */
  lemma DevelopmentPolicy(env: Env, reportOnly: bool)
    requires env.vercelEnv != Some("preview") && env.nodeEnv != Some("production")
    ensures ModeOf(env) == Development
    ensures Declares(Policy(env, reportOnly), Directive(ImgSrc, [Self, Data]))
    ensures Declares(Policy(env, reportOnly), Directive(ConnectSrc, [Self]))
    ensures Declares(Policy(env, reportOnly), Directive(FrameSrc, [NoneKeyword]))
  {
    var own := ModeDirectives(Development);
    assert own[3] == Dir(Directive(ConnectSrc, [Self]));
    assert own[4] == Dir(Directive(ImgSrc, [Self, Data]));
    assert own[5] == Dir(Directive(FrameSrc, [NoneKeyword]));
    ModeDirectiveDeclared(Development, reportOnly, own[3].directive);
    ModeDirectiveDeclared(Development, reportOnly, own[4].directive);
    ModeDirectiveDeclared(Development, reportOnly, own[5].directive);
  }

  // ---------------------------------------------------------------------------
  // What every environment gets

  /** Every line of the policy occurs, unbroken, in the header value. */
  lemma PolicyLineInHeaderValue(env: Env, reportOnly: bool, i: nat)
    requires i < |Policy(env, reportOnly)|
    ensures IsInfix(Render(Policy(env, reportOnly)[i]), HeaderValue(env, reportOnly))
  {
    ConcatContainsEach(RenderAll(Policy(env, reportOnly)), i);
  }

  lemma DefaultDeclared(env: Env, reportOnly: bool, k: nat)
    requires k < |DefaultDirectives|
    ensures Declares(Policy(env, reportOnly), DefaultDirectives[k])
    ensures IsInfix(Render(Dir(DefaultDirectives[k])), HeaderValue(env, reportOnly))
  {
    TemplateUniqueNames(ModeOf(env), reportOnly);
    UniqueDeclares(Policy(env, reportOnly), DefaultDirectives[k]);
    PolicyLineInHeaderValue(env, reportOnly, k + 2);
  }

  /** Every policy carries each of the default directives exactly once, and its
      text shows in the header value. */
  lemma DefaultsInEveryPolicy(env: Env, reportOnly: bool)
    ensures forall d :: d in DefaultDirectives ==>
              Declares(Policy(env, reportOnly), d) && IsInfix(Render(Dir(d)), HeaderValue(env, reportOnly))
  {
    forall d | d in DefaultDirectives
      ensures Declares(Policy(env, reportOnly), d) && IsInfix(Render(Dir(d)), HeaderValue(env, reportOnly))
    {
      var k :| 0 <= k < |DefaultDirectives| && DefaultDirectives[k] == d;
      DefaultDeclared(env, reportOnly, k);
    }
  }

  // ---------------------------------------------------------------------------
  // Report-only mode

  /** The lines of `a + b` lack a name both pieces lack. */
  lemma LacksAppend(a: seq<Line>, b: seq<Line>, name: Name)
    requires Lacks(a, name) && Lacks(b, name)
    ensures Lacks(a + b, name)
  {
    assert forall l :: l in a + b ==> l in a || l in b;
  }

  /** The policy asks browsers to upgrade insecure requests exactly when it is
      not in report-only mode; in report-only mode no directive of that name is
      present at all. */
  lemma UpgradeIffNotReportOnly(env: Env, reportOnly: bool)
    ensures Dir(Directive(UpgradeInsecureRequests, [])) in Policy(env, reportOnly) <==> !reportOnly
    ensures Lacks(Policy(env, reportOnly), UpgradeInsecureRequests) <==> reportOnly
  {
    if reportOnly {
      ReportOnlyTemplateLacksUpgrade(ModeOf(env));
    } else {
      assert Policy(env, reportOnly)[9] in Policy(env, reportOnly);
    }
  }

  lemma ReportOnlyDefaultsLackUpgrade()
    ensures Lacks(Defaults(true), UpgradeInsecureRequests)
  {
  }

  lemma ModeDirectivesLackUpgrade(mode: Mode)
    ensures Lacks(ModeDirectives(mode), UpgradeInsecureRequests)
  {
    ModeNamesUnique(mode);
    NamesWithinLacks(ModeDirectives(mode), ModeNames, UpgradeInsecureRequests);
  }

  lemma ReportOnlyTemplateLacksUpgrade(mode: Mode)
    ensures Lacks(Template(mode, true), UpgradeInsecureRequests)
  {
    var blank: seq<Line> := [Blank];
    var defaults := Defaults(true);
    var own := ModeDirectives(mode);
    assert Lacks(blank, UpgradeInsecureRequests);
    ReportOnlyDefaultsLackUpgrade();
    ModeDirectivesLackUpgrade(mode);
    LacksAppend(blank, defaults, UpgradeInsecureRequests);
    LacksAppend(blank + defaults, own, UpgradeInsecureRequests);
    LacksAppend(blank + defaults + own, blank, UpgradeInsecureRequests);
  }

  /** Only the name `upgrade-insecure-requests` starts with a `u`. */
  lemma NameStartingWithU(name: Name)
    requires NameText(name)[0] == 'u'
    ensures name == UpgradeInsecureRequests
  {
  }

  /** The text `upgrade-insecure-requests;` is the rendering of exactly one line. */
  lemma RenderedUpgrade(line: Line)
    ensures Render(line) == "upgrade-insecure-requests;" <==> line == Dir(Directive(UpgradeInsecureRequests, []))
  {
    var text := "upgrade-insecure-requests;";
    if line.Dir? {
      var d := line.directive;
      if Render(line) == text {
        assert Render(line)[0] == NameText(d.name)[0];
        NameStartingWithU(d.name);
      }
    }
  }

  /** The raw policy text has an `upgrade-insecure-requests;` line exactly when
      report-only mode is off, and then the header value carries it too. */
  lemma UpgradeLineIffNotReportOnly(env: Env, reportOnly: bool)
    ensures "upgrade-insecure-requests;" in SplitLines(CspHeader(env, reportOnly)) <==> !reportOnly
    ensures !reportOnly ==> IsInfix("upgrade-insecure-requests;", HeaderValue(env, reportOnly))
  {
    var lines := Policy(env, reportOnly);
    var text := "upgrade-insecure-requests;";
    UpgradeIffNotReportOnly(env, reportOnly);
    if reportOnly {
      forall i | 0 <= i < |lines| ensures RenderAll(lines)[i] != text {
        RenderedUpgrade(lines[i]);
        assert lines[i] in lines;
      }
    } else {
      RenderedUpgrade(lines[9]);
      assert RenderAll(lines)[9] == text;
      PolicyLineInHeaderValue(env, reportOnly, 9);
    }
  }

  /** The configuration as shipped, with report-only mode on: the header is the
      report-only one, and the policy holds no `upgrade-insecure-requests`,
      neither as a directive nor as a line of its text. */
  lemma ShippedConfiguration(env: Env)
    ensures Headers(env, CspReportOnly)[0].headers[0].key == "Content-Security-Policy-Report-Only"
    ensures Lacks(Policy(env, CspReportOnly), UpgradeInsecureRequests)
    ensures "upgrade-insecure-requests;" !in SplitLines(CspHeader(env, CspReportOnly))
  {
    UpgradeIffNotReportOnly(env, CspReportOnly);
    UpgradeLineIffNotReportOnly(env, CspReportOnly);
  }
}
