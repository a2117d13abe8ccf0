/** `ExportReport`: the Markdown report of an idea and the name of the
    downloaded file. The report is a sequence of sections in a fixed order,
    each present only when its data is. */
module Export {
  import opened Domain

  /** A section of the report, with the data it is rendered from. */
  datatype Section =
    | Overview(idea: IdeaCore)
    | AnalysisSection(analysis: Analysis)
    | TrendsSection(trends: Trends)
    | FitSection(score: int)
    | GtmSection(goToMarket: GoToMarket)

  /** The position of each kind of section in the report. */
  function Rank(s: Section): nat
  {
    match s
    case Overview(_) => 0
    case AnalysisSection(_) => 1
    case TrendsSection(_) => 2
    case FitSection(_) => 3
    case GtmSection(_) => 4
  }

  predicate StartsWith(s: string, prefix: string)
  {
    |prefix| <= |s| && s[..|prefix|] == prefix
  }

  lemma StartsWithTrans(s: string, t: string, u: string)
    requires StartsWith(s, t) && StartsWith(t, u)
    ensures StartsWith(s, u)
  {
    assert s[..|u|] == s[..|t|][..|u|];
  }

  /** `**Label:** value` and a blank line, as one template literal. */
  function Para(tag: string, value: string): string
  {
    tag + value + "\n\n"
  }

  /** `**Label:** value` and a line break, as one template literal. */
  function Line(tag: string, value: string): string
  {
    tag + value + "\n"
  }

  /** The accumulator with one line per element of `xs` appended, in order. */
  function AppendEach<T>(md: string, xs: seq<T>, line: T -> string): string
  {
    if xs == [] then md else AppendEach(md, xs[..|xs| - 1], line) + line(xs[|xs| - 1])
  }

  function GoogleLine(t: GoogleTrend): string
  {
    "- " + t.name + ": Interest Score " + Decimal(t.interest) + "\n"
  }

  function RedditLine(m: RedditMention): string
  {
    "- " + m.name + ": " + Decimal(m.mentions) + " mentions\n"
  }

  function ItemLine(s: string): string
  {
    "- " + s + "\n"
  }

  /** The report so far, `md`, with the lines of section `s` appended. */
  function AppendSection(md: string, s: Section): string
  {
    match s
    case Overview(idea) =>
      md + Para("# Startup Idea Report: ", idea.title) + "## Idea Overview\n"
      + Para("**Problem:** ", idea.problem) + Para("**Solution:** ", idea.solution)
      + Para("**Target Market:** ", idea.market)
    case AnalysisSection(a) =>
      md + "## AI Analysis\n" + Para("**Problem Deep Dive:** ", a.problem)
      + Para("**Opportunity:** ", a.opportunity) + Para("**Target Audience:** ", a.targetAudience)
      + Para("**Competitors:** ", a.competitors) + Para("**Revenue Potential:** ", a.revenuePotential)
      + Para("**Risks:** ", a.risks) + Para("**Why Now?:** ", a.whyNow)
    case TrendsSection(t) =>
      AppendEach(
        AppendEach(md + "## Trend Signals\n" + "### Google Trends\n", t.googleTrends, GoogleLine)
        + "\n### Reddit Mentions\n",
        t.redditMentions, RedditLine)
      + "\n"
    case FitSection(score) =>
      md + "## Founder Fit Score\n" + ("Your score is **" + Decimal(score) + "%**.\n\n")
    case GtmSection(g) =>
      AppendEach(
        AppendEach(
          md + "## Go-to-Market Helpers\n" + "### Landing Page Copy\n"
          + Line("**Headline:** ", g.landingPageCopy.headline)
          + Line("**Sub-headline:** ", g.landingPageCopy.subheadline)
          + Para("**CTA:** ", g.landingPageCopy.cta)
          + "### Brand Name Suggestions\n",
          g.brandNameSuggestions, ItemLine)
        + "\n### Ad Creative Ideas\n",
        g.adCreativeIdeas, ItemLine)
      + "\n"
  }

  lemma {:induction false} AppendEachExtends<T>(md: string, xs: seq<T>, line: T -> string)
    ensures StartsWith(AppendEach(md, xs, line), md)
  {
    if xs != [] {
      var before := AppendEach(md, xs[..|xs| - 1], line);
      AppendEachExtends(md, xs[..|xs| - 1], line);
      StartsWithTrans(before + line(xs[|xs| - 1]), before, md);
    }
  }

  lemma OverviewExtends(md: string, i: IdeaCore)
    ensures StartsWith(AppendSection(md, Overview(i)), md)
  {
  }

  lemma AnalysisExtends(md: string, a: Analysis)
    ensures StartsWith(AppendSection(md, AnalysisSection(a)), md)
  {
  }

  lemma FitExtends(md: string, score: int)
    ensures StartsWith(AppendSection(md, FitSection(score)), md)
  {
  }

  /** Appending a section never rewrites what is already there. */
  lemma {:induction false} AppendSectionExtends(md: string, s: Section)
    ensures StartsWith(AppendSection(md, s), md)
  {
    match s
    case Overview(i) => OverviewExtends(md, i);
    case AnalysisSection(a) => AnalysisExtends(md, a);
    case FitSection(score) => FitExtends(md, score);
    case TrendsSection(t) =>
      var m0 := md + "## Trend Signals\n" + "### Google Trends\n";
      var m1 := AppendEach(m0, t.googleTrends, GoogleLine);
      var m2 := AppendEach(m1 + "\n### Reddit Mentions\n", t.redditMentions, RedditLine);
      AppendEachExtends(m0, t.googleTrends, GoogleLine);
      AppendEachExtends(m1 + "\n### Reddit Mentions\n", t.redditMentions, RedditLine);
      StartsWithTrans(m1, m0, md);
      StartsWithTrans(m1 + "\n### Reddit Mentions\n", m1, md);
      StartsWithTrans(m2, m1 + "\n### Reddit Mentions\n", md);
      StartsWithTrans(m2 + "\n", m2, md);
    case GtmSection(g) =>
      var m0 := md + "## Go-to-Market Helpers\n" + "### Landing Page Copy\n"
          + Line("**Headline:** ", g.landingPageCopy.headline)
          + Line("**Sub-headline:** ", g.landingPageCopy.subheadline)
          + Para("**CTA:** ", g.landingPageCopy.cta)
          + "### Brand Name Suggestions\n";
      var m1 := AppendEach(m0, g.brandNameSuggestions, ItemLine);
      var m2 := AppendEach(m1 + "\n### Ad Creative Ideas\n", g.adCreativeIdeas, ItemLine);
      AppendEachExtends(m0, g.brandNameSuggestions, ItemLine);
      AppendEachExtends(m1 + "\n### Ad Creative Ideas\n", g.adCreativeIdeas, ItemLine);
      StartsWithTrans(m1, m0, md);
      StartsWithTrans(m1 + "\n### Ad Creative Ideas\n", m1, md);
      StartsWithTrans(m2, m1 + "\n### Ad Creative Ideas\n", md);
      StartsWithTrans(m2 + "\n", m2, md);
  }

  /** The sections of the report of an idea, in order. */
  function Sections(idea: IdeaCore, analysis: Option<Analysis>, trends: Option<Trends>,
                    fitScore: Option<int>, goToMarket: Option<GoToMarket>): (ss: seq<Section>)
    ensures 1 <= |ss| <= 5 && ss[0] == Overview(idea)
  {
    var s1 := [Overview(idea)];
    var s2 := if analysis.Some? then s1 + [AnalysisSection(analysis.value)] else s1;
    var s3 := if trends.Some? then s2 + [TrendsSection(trends.value)] else s2;
    var s4 := if fitScore.Some? then s3 + [FitSection(fitScore.value)] else s3;
    if goToMarket.Some? then s4 + [GtmSection(goToMarket.value)] else s4
  }

  /** Sections come in the order overview, analysis, trends, fit score,
      go-to-market, each at most once. */
  lemma SectionsOrdered(idea: IdeaCore, analysis: Option<Analysis>, trends: Option<Trends>,
                        fitScore: Option<int>, goToMarket: Option<GoToMarket>)
    ensures var ss := Sections(idea, analysis, trends, fitScore, goToMarket);
      forall i, j :: 0 <= i < j < |ss| ==> Rank(ss[i]) < Rank(ss[j])
  {
  }

  /** Each optional section is there exactly when its data is (a fit score
      of 0 included), and is rendered from that data. */
  lemma SectionsPresent(idea: IdeaCore, analysis: Option<Analysis>, trends: Option<Trends>,
                        fitScore: Option<int>, goToMarket: Option<GoToMarket>)
    ensures forall x :: AnalysisSection(x) in Sections(idea, analysis, trends, fitScore, goToMarket) <==> analysis == Some(x)
    ensures forall x :: TrendsSection(x) in Sections(idea, analysis, trends, fitScore, goToMarket) <==> trends == Some(x)
    ensures forall x :: FitSection(x) in Sections(idea, analysis, trends, fitScore, goToMarket) <==> fitScore == Some(x)
    ensures forall x :: GtmSection(x) in Sections(idea, analysis, trends, fitScore, goToMarket) <==> goToMarket == Some(x)
  {
  }

  /** The text of a list of sections, the first one first. */
  function Flatten(ss: seq<Section>): string
  {
    if ss == [] then "" else AppendSection(Flatten(ss[..|ss| - 1]), ss[|ss| - 1])
  }

  lemma FlattenSnoc(ss: seq<Section>, s: Section)
    ensures Flatten(ss + [s]) == AppendSection(Flatten(ss), s)
  {
    assert (ss + [s])[..|ss|] == ss;
  }

  /** Appending sections never rewrites the text of the ones before. */
  lemma {:induction false} FlattenExtends(ss: seq<Section>, k: nat)
    requires k <= |ss|
    ensures StartsWith(Flatten(ss), Flatten(ss[..k]))
    decreases |ss|
  {
    if k < |ss| {
      var init := ss[..|ss| - 1];
      var done := Flatten(init);
      assert Flatten(ss) == AppendSection(done, ss[|ss| - 1]);
      assert init[..k] == ss[..k];
      FlattenExtends(init, k);
      AppendSectionExtends(done, ss[|ss| - 1]);
      StartsWithTrans(Flatten(ss), done, Flatten(ss[..k]));
    } else {
      assert ss[..k] == ss;
    }
  }

  lemma {:induction false} OverviewStartsWithTitle(idea: IdeaCore)
    ensures StartsWith(AppendSection("", Overview(idea)), Para("# Startup Idea Report: ", idea.title))
  {
    var t := Para("# Startup Idea Report: ", idea.title);
    var m := "" + t + "## Idea Overview\n";
    var m2 := m + Para("**Problem:** ", idea.problem);
    var m3 := m2 + Para("**Solution:** ", idea.solution);
    assert "" + t == t;
    StartsWithTrans(m2, m, t);
    StartsWithTrans(m3, m2, t);
    StartsWithTrans(m3 + Para("**Target Market:** ", idea.market), m3, t);
  }

  /** `generateMarkdown`: the empty string without an idea, else the text
      of its sections one after the other, opening with the title line. */
  function Report(idea: Option<IdeaCore>, analysis: Option<Analysis>, trends: Option<Trends>,
                  fitScore: Option<int>, goToMarket: Option<GoToMarket>): (r: string)
    ensures idea.None? ==> r == ""
    ensures idea.Some? ==> StartsWith(r, "# Startup Idea Report: " + idea.value.title + "\n\n")
  {
    if idea.None? then ""
    else
      var ss := Sections(idea.value, analysis, trends, fitScore, goToMarket);
      FlattenExtends(ss, 1);
      assert ss[..1] == [Overview(idea.value)];
      assert Flatten([Overview(idea.value)]) == AppendSection("", Overview(idea.value)) by {
        assert [Overview(idea.value)][..0] == [];
      }
      OverviewStartsWithTitle(idea.value);
      StartsWithTrans(Flatten(ss), Flatten(ss[..1]), Para("# Startup Idea Report: ", idea.value.title));
      Flatten(ss)
  }

  lemma {:induction false} AppendEachConcat<T>(md: string, xs: seq<T>, ys: seq<T>, line: T -> string)
    ensures AppendEach(md, xs + ys, line) == AppendEach(AppendEach(md, xs, line), ys, line)
    decreases |ys|
  {
    if ys == [] {
      assert xs + ys == xs;
    } else {
      var k := |ys| - 1;
      assert (xs + ys)[..|xs + ys| - 1] == xs + ys[..k];
      AppendEachConcat(md, xs, ys[..k], line);
    }
  }

  /** One line per element, in input order: the line of element `k` comes
      right after the lines of the elements before it, and the lines of the
      elements after it follow. */
  lemma {:induction false} LineAt<T>(md: string, xs: seq<T>, line: T -> string, k: nat)
    requires k < |xs|
    ensures AppendEach(md, xs, line) == AppendEach(AppendEach(md, xs[..k], line) + line(xs[k]), xs[k + 1..], line)
  {
    assert xs[..k + 1][..k] == xs[..k];
    assert xs == xs[..k + 1] + xs[k + 1..];
    AppendEachConcat(md, xs[..k + 1], xs[k + 1..], line);
  }

  /** The `forEach` loops of the report: one line appended per element. */
  method AppendLines<T>(markdown: string, xs: seq<T>, line: T -> string) returns (md: string)
    ensures md == AppendEach(markdown, xs, line)
  {
    md := markdown;
    for i := 0 to |xs|
      invariant md == AppendEach(markdown, xs[..i], line)
    {
      assert xs[..i + 1][..i] == xs[..i];
      md := md + line(xs[i]);
    }
    assert xs[..|xs|] == xs;
  }

  /** The title line and the idea overview, which open every report. */
  method WriteOverview(i: IdeaCore) returns (markdown: string)
    ensures markdown == AppendSection("", Overview(i))
  {
    markdown := Para("# Startup Idea Report: ", i.title);
    markdown := markdown + "## Idea Overview\n";
    markdown := markdown + Para("**Problem:** ", i.problem);
    markdown := markdown + Para("**Solution:** ", i.solution);
    markdown := markdown + Para("**Target Market:** ", i.market);
    assert "" + Para("# Startup Idea Report: ", i.title) == Para("# Startup Idea Report: ", i.title);
  }

  method WriteAnalysis(md: string, a: Analysis) returns (markdown: string)
    ensures markdown == AppendSection(md, AnalysisSection(a))
  {
    markdown := md + "## AI Analysis\n";
    markdown := markdown + Para("**Problem Deep Dive:** ", a.problem);
    markdown := markdown + Para("**Opportunity:** ", a.opportunity);
    markdown := markdown + Para("**Target Audience:** ", a.targetAudience);
    markdown := markdown + Para("**Competitors:** ", a.competitors);
    markdown := markdown + Para("**Revenue Potential:** ", a.revenuePotential);
    markdown := markdown + Para("**Risks:** ", a.risks);
    markdown := markdown + Para("**Why Now?:** ", a.whyNow);
  }

  method WriteTrends(md: string, t: Trends) returns (markdown: string)
    ensures markdown == AppendSection(md, TrendsSection(t))
  {
    markdown := md + "## Trend Signals\n";
    markdown := markdown + "### Google Trends\n";
    markdown := AppendLines(markdown, t.googleTrends, GoogleLine);
    markdown := markdown + "\n### Reddit Mentions\n";
    markdown := AppendLines(markdown, t.redditMentions, RedditLine);
    markdown := markdown + "\n";
  }

  method WriteFitScore(md: string, score: int) returns (markdown: string)
    ensures markdown == AppendSection(md, FitSection(score))
  {
    markdown := md + "## Founder Fit Score\n";
    markdown := markdown + ("Your score is **" + Decimal(score) + "%**.\n\n");
  }

  method WriteGoToMarket(md: string, g: GoToMarket) returns (markdown: string)
    ensures markdown == AppendSection(md, GtmSection(g))
  {
    markdown := md + "## Go-to-Market Helpers\n";
    markdown := markdown + "### Landing Page Copy\n";
    markdown := markdown + Line("**Headline:** ", g.landingPageCopy.headline);
    markdown := markdown + Line("**Sub-headline:** ", g.landingPageCopy.subheadline);
    markdown := markdown + Para("**CTA:** ", g.landingPageCopy.cta);
    markdown := markdown + "### Brand Name Suggestions\n";
    markdown := AppendLines(markdown, g.brandNameSuggestions, ItemLine);
    markdown := markdown + "\n### Ad Creative Ideas\n";
    markdown := AppendLines(markdown, g.adCreativeIdeas, ItemLine);
    markdown := markdown + "\n";
  }

  /** `generateMarkdown`: grows the `markdown` accumulator section by section. */
  method GenerateMarkdown(idea: Option<IdeaCore>, analysis: Option<Analysis>, trends: Option<Trends>,
                          fitScore: Option<int>, goToMarket: Option<GoToMarket>)
    returns (markdown: string)
    ensures markdown == Report(idea, analysis, trends, fitScore, goToMarket)
  {
    if idea.None? {
      return "";
    }
    var i := idea.value;
    markdown := WriteOverview(i);
    ghost var done := [Overview(i)];
    assert markdown == Flatten(done) by {
      assert done[..0] == [];
    }
    if analysis.Some? {
      FlattenSnoc(done, AnalysisSection(analysis.value));
      markdown := WriteAnalysis(markdown, analysis.value);
      done := done + [AnalysisSection(analysis.value)];
    }
    if trends.Some? {
      FlattenSnoc(done, TrendsSection(trends.value));
      markdown := WriteTrends(markdown, trends.value);
      done := done + [TrendsSection(trends.value)];
    }
    if fitScore.Some? {
      FlattenSnoc(done, FitSection(fitScore.value));
      markdown := WriteFitScore(markdown, fitScore.value);
      done := done + [FitSection(fitScore.value)];
    }
    if goToMarket.Some? {
      FlattenSnoc(done, GtmSection(goToMarket.value));
      markdown := WriteGoToMarket(markdown, goToMarket.value);
      done := done + [GtmSection(goToMarket.value)];
    }
    assert done == Sections(i, analysis, trends, fitScore, goToMarket);
  }

  /** JavaScript's `\s`: the characters `/\s+/` matches. */
  predicate IsJsWhitespace(c: char)
  {
    c == ' ' || c == '\t' || c == '\n' || c == '\U{000B}' || c == '\U{000C}' || c == '\r'
    || c == '\U{00A0}' || c == '\U{1680}' || ('\U{2000}' <= c <= '\U{200A}')
    || c == '\U{2028}' || c == '\U{2029}' || c == '\U{202F}' || c == '\U{205F}'
    || c == '\U{3000}' || c == '\U{FEFF}'
  }

  function SkipWhitespace(s: string): (r: string)
    ensures |r| <= |s| && r == s[|s| - |r|..]
    ensures r == [] || !IsJsWhitespace(r[0])
  {
    if s != [] && IsJsWhitespace(s[0]) then SkipWhitespace(s[1..]) else s
  }

  /** `s.replace(/\s+/g, '_')`: each maximal run of whitespace becomes one `_`. */
  function Underscored(s: string): (r: string)
    ensures r == "" <==> s == ""
    ensures |r| <= |s|
    decreases |s|
  {
    if s == [] then []
    else if IsJsWhitespace(s[0]) then "_" + Underscored(SkipWhitespace(s[1..]))
    else [s[0]] + Underscored(s[1..])
  }

  /** The replaced title contains no whitespace. */
  lemma {:induction false} UnderscoredHasNoWhitespace(s: string)
    ensures forall i :: 0 <= i < |Underscored(s)| ==> !IsJsWhitespace(Underscored(s)[i])
    decreases |s|
  {
    if s != [] {
      if IsJsWhitespace(s[0]) {
        UnderscoredHasNoWhitespace(SkipWhitespace(s[1..]));
      } else {
        UnderscoredHasNoWhitespace(s[1..]);
      }
    }
  }

  /** A title without whitespace is kept as it is. */
  lemma {:induction false} UnderscoredKeepsPlainTitle(s: string)
    requires forall i :: 0 <= i < |s| ==> !IsJsWhitespace(s[i])
    ensures Underscored(s) == s
  {
    if s != [] {
      UnderscoredKeepsPlainTitle(s[1..]);
    }
  }

  predicate AllWhitespace(w: string)
  {
    forall i :: 0 <= i < |w| ==> IsJsWhitespace(w[i])
  }

  lemma ConcatAssoc(a: string, b: string, c: string)
    ensures a + (b + c) == (a + b) + c
  {
  }

  /** Text that does not end in whitespace stops a run: what follows it is
      skipped on its own. */
  lemma {:induction false} SkipWhitespaceConcat(s: string, x: string)
    requires s != [] && !IsJsWhitespace(s[|s| - 1])
    ensures SkipWhitespace(s + x) == SkipWhitespace(s) + x
  {
    assert (s + x)[0] == s[0];
    if IsJsWhitespace(s[0]) {
      assert (s + x)[1..] == s[1..] + x;
      SkipWhitespaceConcat(s[1..], x);
    }
  }

  /** Text that does not end in whitespace is replaced on its own, whatever
      follows it. */
  lemma {:induction false} UnderscoredConcat(a: string, x: string)
    requires a == [] || !IsJsWhitespace(a[|a| - 1])
    ensures Underscored(a + x) == Underscored(a) + Underscored(x)
    decreases |a|
  {
    if a == [] {
      assert a + x == x;
    } else {
      assert (a + x)[0] == a[0] && (a + x)[1..] == a[1..] + x;
      if IsJsWhitespace(a[0]) {
        var rest := a[1..];
        SkipWhitespaceConcat(rest, x);
        var skipped := SkipWhitespace(rest);
        UnderscoredConcat(skipped, x);
        calc {
          Underscored(a + x);
          "_" + Underscored(skipped + x);
          "_" + (Underscored(skipped) + Underscored(x));
          { ConcatAssoc("_", Underscored(skipped), Underscored(x)); }
          ("_" + Underscored(skipped)) + Underscored(x);
        }
      } else {
        UnderscoredConcat(a[1..], x);
        calc {
          Underscored(a + x);
          [a[0]] + Underscored(a[1..] + x);
          [a[0]] + (Underscored(a[1..]) + Underscored(x));
          { ConcatAssoc([a[0]], Underscored(a[1..]), Underscored(x)); }
          ([a[0]] + Underscored(a[1..])) + Underscored(x);
        }
      }
    }
  }

  /** A whitespace run followed by text that does not start with whitespace
      is skipped as a whole. */
  lemma {:induction false} SkipRun(w: string, b: string)
    requires AllWhitespace(w)
    requires b == [] || !IsJsWhitespace(b[0])
    ensures SkipWhitespace(w + b) == b
  {
    if w == [] {
      assert w + b == b;
    } else {
      assert (w + b)[0] == w[0] && (w + b)[1..] == w[1..] + b;
      SkipRun(w[1..], b);
    }
  }

  /** A non-empty whitespace run followed by text that does not start with
      whitespace becomes a single `_`. */
  lemma UnderscoredRun(w: string, b: string)
    requires w != [] && AllWhitespace(w)
    requires b == [] || !IsJsWhitespace(b[0])
    ensures Underscored(w + b) == "_" + Underscored(b)
  {
    assert (w + b)[0] == w[0] && (w + b)[1..] == w[1..] + b;
    SkipRun(w[1..], b);
  }

  /** `replace(/\s+/g, '_')`: a maximal run of whitespace becomes exactly one
      `_`, and the text on either side is replaced on its own. */
  lemma RunBecomesOneUnderscore(a: string, w: string, b: string)
    requires a == [] || !IsJsWhitespace(a[|a| - 1])
    requires w != [] && AllWhitespace(w)
    requires b == [] || !IsJsWhitespace(b[0])
    ensures Underscored(a + w + b) == Underscored(a) + "_" + Underscored(b)
  {
    calc {
      Underscored(a + w + b);
      { ConcatAssoc(a, w, b); }
      Underscored(a + (w + b));
      { UnderscoredConcat(a, w + b); }
      Underscored(a) + Underscored(w + b);
      { UnderscoredRun(w, b); }
      Underscored(a) + ("_" + Underscored(b));
      { ConcatAssoc(Underscored(a), "_", Underscored(b)); }
      Underscored(a) + "_" + Underscored(b);
    }
  }

  /** The name of the downloaded file: the title with its whitespace runs
      turned into `_` (or `idea` when that leaves nothing), then `_report.md`. */
  function ReportFilename(idea: Option<IdeaCore>): (r: string)
    ensures |r| > |"_report.md"| && r[|r| - |"_report.md"|..] == "_report.md"
    ensures idea.None? || idea.value.title == "" ==> r == "idea_report.md"
    ensures idea.Some? && idea.value.title != "" ==> r == Underscored(idea.value.title) + "_report.md"
  {
    var stem := if idea.None? then "" else Underscored(idea.value.title);
    (if stem == "" then "idea" else stem) + "_report.md"
  }

  /** The file name never contains whitespace. */
  lemma FilenameHasNoWhitespace(idea: Option<IdeaCore>)
    ensures forall i :: 0 <= i < |ReportFilename(idea)| ==> !IsJsWhitespace(ReportFilename(idea)[i])
  {
    var suffix := "_report.md";
    assert forall i :: 0 <= i < |suffix| ==> !IsJsWhitespace(suffix[i]);
    var stem := if idea.None? || idea.value.title == "" then "idea" else Underscored(idea.value.title);
    if idea.Some? {
      UnderscoredHasNoWhitespace(idea.value.title);
    }
    assert forall i :: 0 <= i < |stem| ==> !IsJsWhitespace(stem[i]);
    assert ReportFilename(idea) == stem + suffix;
  }
}
