# IdeasLab core, modelled in Dafny

IdeasLab is a web app that suggests startup ideas. It serves a shared
"idea of the day", sells it (or a `pro` subscription) through PayPal,
exports an idea as a Markdown report, and scores how well a founder fits an
idea. This project models the logic of that app in Dafny and proves what it
promises:

- `get-daily-idea`, the serverless handler. It keeps a 24-hour cache of the
  idea of the day in the `daily_ideas` table.
- `capture-paypal-order`, the serverless handler. It captures a payment and
  then runs three steps, each of which can fail. It marks the daily idea
  sold, copies it into the buyer's `ideas`, and upgrades the buyer's
  profile to `pro`.
- The Markdown report of `ExportReport` and the name of the downloaded file.
- The founder-fit quiz, and the Dashboard's fit heuristic, save guard,
  builder prompts and pro gating.
- The Header's navigation tabs and the expandable tab row they use.
- The health-metric card, the landing page's cycling hero title, and the
  validation of the idea, keyword and profile forms.

The model is sequential. Every outside answer is a parameter of the
operation that receives it:

- the clock, in integer milliseconds;
- the idea generator and the PayPal capture;
- each database call's success or failure;
- the random draw of the fit heuristic;
- the URL encoder.

Records whose fields the code updates in place are classes, and the
database tables are their fields. Examples are `DailyIdeasTable`,
`Purchase.Backend`, `Dashboard.Page`, `FounderFit.Quiz`,
`ExpandableTabs.TabRow`, `Hero.Banner` and `ProfilePage.Page`. Pure
expressions are functions, and their properties are lemmas. Strings are
sequences of characters, and integers are unbounded.

Files, one module per source file plus the shared `Domain`:

- `domain.dfy`: idea payloads, profiles, `Math.round` of a ratio, decimal
  rendering of integers, and the minimum-length rule of the form schemas.
- `daily_ideas.dfy`: `supabase/functions/get-daily-idea/index.ts`.
- `purchase.dfy`: `supabase/functions/capture-paypal-order/index.ts`.
- `export.dfy`: `src/components/export/ExportReport.tsx`.
- `founder_fit.dfy`: `src/components/founderfit/FounderFitQuiz.tsx`.
- `dashboard.dfy`: `src/pages/Dashboard.tsx`.
- `navigation.dfy`: `src/components/layout/Header.tsx`.
- `tabs.dfy`: `src/components/ui/expandable-tabs.tsx`.
- `health_metrics.dfy`: `src/components/ideas/IdeaHealthMetrics.tsx`.
- `hero.dfy`: `src/components/ui/animated-hero.tsx`.
- `idea_form.dfy`, `keyword_form.dfy` and `profile_page.dfy`: the idea form,
  the keyword form and `src/pages/Profile.tsx`.

## Model

| member | source | states |
|---|---|---|
| Domain.RoundDiv | src/components/founderfit/FounderFitQuiz.tsx:34 | `Math.round(num / den)` for a positive `den`: the result is the nearest integer to the ratio, and a half rounds up |
| Domain.DecimalInjective | src/components/export/ExportReport.tsx:42-53 | two integers render as the same text in a template literal only if they are equal |
| Domain.NatDigitsRoundTrip | src/components/export/ExportReport.tsx:42-53 | reading the decimal digits of a natural number back gives that number |
| Domain.CheckMin | src/components/ideacapture/IdeaForm.tsx:18-21 | a `min(n, message)` rule reports no error iff the string has at least `n` characters, and otherwise reports exactly its message for its field |
| DailyIdeas.ParseForceNew | supabase/functions/get-daily-idea/index.ts:20-24 | `forceNew` holds iff the request is a POST whose JSON object has a truthy `forceNew`; an unparsable body counts as `{}`; reading the flag throws (`None`) iff a POST body is the JSON `null` |
| DailyIdeas.LatestAvailable | supabase/functions/get-daily-idea/index.ts:28-35 | no row is chosen iff no row is `available`; otherwise the chosen row is `available` and no `available` row has a later `generated_at` |
| DailyIdeas.Decide | supabase/functions/get-daily-idea/index.ts:10-53 | a cache hit happens iff `forceNew` is false, the fetch did not fail, an available row exists and it is strictly younger than 24 hours; with `forceNew` the cache is never read; a fetch fault other than "no rows" fails the request |
| DailyIdeas.DailyIdeasTable.Insert | supabase/functions/get-daily-idea/index.ts:60-64 | exactly one `available` row with the generated data is appended under an id that no existing row has; its `generated_at`, which the database's default fills in, is taken to be the handler's clock `now` |
| DailyIdeas.DailyIdeasTable.GetDailyIdea | supabase/functions/get-daily-idea/index.ts:9-89 | a hit serves the cached row's id and data and leaves the table unchanged; a miss or `forceNew` inserts exactly one row and serves it; a failed fetch, generation or insert answers 500 and inserts nothing |
| DailyIdeas.InsertedRowIsLatest | supabase/functions/get-daily-idea/index.ts:28-64 | a row inserted no earlier than every other row is the one the cache query returns next |
| DailyIdeas.ServedAgainWithinWindow | supabase/functions/get-daily-idea/index.ts:42-75 | after a miss inserted a row at `t`, a plain request before `t` + 24h is served that same row |
| DailyIdeas.ExpiresAfterOneDay | supabase/functions/get-daily-idea/index.ts:45-46 | once 24 hours have passed (exactly 24h included) the cached row is no longer served |
| Purchase.IdeaToBuy | supabase/functions/capture-paypal-order/index.ts:53 | a daily idea is bought iff `ideaId` is present and not the falsy 0, and then it is that id; a missing, `null` or 0 id is a plain subscription purchase |
| Purchase.InputError | supabase/functions/capture-paypal-order/index.ts:19-27 | the checks before the capture pass iff both credentials are set, the body is an object and `orderID` and `userId` are truthy; missing credentials are reported first |
| Purchase.DeclineMessage | supabase/functions/capture-paypal-order/index.ts:39-43 | a declined capture reports PayPal's message, or the default text when that message is empty; the result is never empty |
| Purchase.CloneForBuyer | supabase/functions/capture-paypal-order/index.ts:73-88 | the owned copy belongs to the buyer and carries the idea's fields, analysis, trends, go-to-market data, attributes, health metrics and value ladder |
| Purchase.UpgradeToPro | supabase/functions/capture-paypal-order/index.ts:98-101 | only the buyer's profile becomes `pro`; other profiles are untouched; a buyer without a row changes nothing |
| Purchase.Backend.InsertOwned | supabase/functions/capture-paypal-order/index.ts:74-90 | the owned idea is stored under a fresh id |
| Purchase.Backend.CaptureOrder | supabase/functions/capture-paypal-order/index.ts:13-118 | rejected input or a declined payment changes nothing; an `ideaId` that is missing, `null` or 0 buys only the subscription; an unavailable idea fails before any change; after the idea is marked sold, a failed copy or profile update leaves the sale in place with status 400; success adds exactly one owned copy and upgrades only the buyer; a sold idea never changes again |
| Export.AppendSectionExtends | src/components/export/ExportReport.tsx:20-71 | appending a section never rewrites the report written so far |
| Export.SectionsOrdered | src/components/export/ExportReport.tsx:20-71 | sections come in the order overview, analysis, trends, fit score, go-to-market |
| Export.SectionsPresent | src/components/export/ExportReport.tsx:27-56 | each optional section appears iff its data is present (a fit score of 0 included) and is rendered from that data |
| Export.FlattenExtends | src/components/export/ExportReport.tsx:20-71 | the text of the first `k` sections is a prefix of the whole report |
| Export.Report | src/components/export/ExportReport.tsx:17-20 | no idea gives the empty string; otherwise the report starts with `# Startup Idea Report: <title>` and a blank line |
| Export.LineAt | src/components/export/ExportReport.tsx:41-69 | each element's bullet line comes right after the lines of the elements before it, in input order |
| Export.AppendLines | src/components/export/ExportReport.tsx:41-69 | the `forEach` loop appends one line per element, in order |
| Export.WriteOverview | src/components/export/ExportReport.tsx:20-25 | writes the title line and the idea overview |
| Export.WriteAnalysis | src/components/export/ExportReport.tsx:27-36 | appends the seven analysis paragraphs |
| Export.WriteTrends | src/components/export/ExportReport.tsx:38-49 | appends one Google Trends bullet per entry, then one Reddit bullet per entry |
| Export.WriteFitScore | src/components/export/ExportReport.tsx:51-54 | appends the score as a percentage |
| Export.WriteGoToMarket | src/components/export/ExportReport.tsx:56-71 | appends the landing-page copy, one bullet per brand name and one per ad idea |
| Export.GenerateMarkdown | src/components/export/ExportReport.tsx:17-74 | the accumulated text equals the report of the present sections in their fixed order |
| Export.SkipWhitespace | src/components/export/ExportReport.tsx:82 | the rest of the text after a whitespace run, which no longer starts with whitespace |
| Export.Underscored | src/components/export/ExportReport.tsx:82 | the replaced title is empty iff the title is, and never longer than it |
| Export.UnderscoredHasNoWhitespace | src/components/export/ExportReport.tsx:82 | the replaced title contains no whitespace |
| Export.UnderscoredConcat | src/components/export/ExportReport.tsx:82 | text that does not end in whitespace is replaced independently of what follows it |
| Export.RunBecomesOneUnderscore | src/components/export/ExportReport.tsx:82 | every maximal whitespace run, between text that does not end and text that does not start with whitespace, becomes exactly one `_`, and the text on either side is replaced on its own |
| Export.UnderscoredKeepsPlainTitle | src/components/export/ExportReport.tsx:82 | a title without whitespace is kept as it is |
| Export.ReportFilename | src/components/export/ExportReport.tsx:82 | the file name ends in `_report.md`; a missing or empty title gives `idea_report.md` |
| Export.FilenameHasNoWhitespace | src/components/export/ExportReport.tsx:82 | the file name never contains whitespace |
| FounderFit.Score | src/components/founderfit/FounderFitQuiz.tsx:32-34 | the score is the rounded percentage of "yes" answers out of three questions |
| FounderFit.ScoreValues | src/components/founderfit/FounderFitQuiz.tsx:7-34 | with answers only for the three questions, the score is 0, 33, 67 or 100 |
| FounderFit.OnlyYesCounts | src/components/founderfit/FounderFitQuiz.tsx:33 | two answer sets with the same "yes" answers score the same |
| FounderFit.ScoreExtremes | src/components/founderfit/FounderFitQuiz.tsx:33-34 | three "yes" answers score 100, and no "yes" scores 0 |
| FounderFit.AllAnsweredIffEach | src/components/founderfit/FounderFitQuiz.tsx:39-63 | Calculate is enabled iff each of the three questions has an answer |
| FounderFit.Quiz.constructor | src/components/founderfit/FounderFitQuiz.tsx:19-26 | the quiz starts with no answers and no score |
| FounderFit.Quiz.ValueChange | src/components/founderfit/FounderFitQuiz.tsx:28-30 | answering question `i` sets answer `i` only |
| FounderFit.Quiz.CalculateScore | src/components/founderfit/FounderFitQuiz.tsx:32-37 | stores the score and reports the same score to the parent |
| FounderFit.Quiz.Reset | src/components/founderfit/FounderFitQuiz.tsx:22-26 | clears the answers, the score and the score the parent holds |
| Dashboard.FitScore | src/pages/Dashboard.tsx:105-108 | the fit score is half the description length, capped at 70, plus the draw, rounded and capped at 99; it lies in [0, 99] and is exactly 70 + draw from 140 characters on |
| Dashboard.FitScoreMonotone | src/pages/Dashboard.tsx:106-108 | a longer description never scores less for the same draw |
| Dashboard.FillPlacesValues | src/pages/Dashboard.tsx:145-176 | each value of a template sits at its slot, and the slots are in the order of the values without overlapping |
| Dashboard.FillCitesInOrder | src/pages/Dashboard.tsx:145-176 | a filled template holds every value, each at its slot, in the order of the values and without overlap |
| Dashboard.FullPrompt | src/pages/Dashboard.tsx:145-156 | the empty string without an idea; otherwise the copied prompt holds the idea's title, problem, solution and market, each at its place in the fixed text, in that order |
| Dashboard.PlainBuilderPrompt | src/pages/Dashboard.tsx:172-177 | the unencoded builder prompt holds the idea's title, problem, solution and market, each at its place in the fixed text, in that order |
| Dashboard.BuilderPrompt | src/pages/Dashboard.tsx:172-177 | the empty string without an idea, else the encoder applied to the plain builder prompt |
| Dashboard.Panels | src/pages/Dashboard.tsx:222-266 | the quiz, trend signals, go-to-market helpers and build section are shown iff the user is pro; a non-pro user sees an upgrade card in place of each of the first three |
| Dashboard.OnlyProUnlocks | src/pages/Dashboard.tsx:180 | only the exact status `pro` unlocks the panels; `admin` and a missing profile do not |
| Dashboard.Page.constructor | src/pages/Dashboard.tsx:37-50 | the page starts loading, with no idea, no score and no writes |
| Dashboard.Page.BeginFetch | src/pages/Dashboard.tsx:75-78 | fetching clears the fit score and hides the builders |
| Dashboard.Page.FinishFetch | src/pages/Dashboard.tsx:80-95 | a new idea replaces the shown data and flips `ideaGenerated`; a failure keeps everything; loading ends either way |
| Dashboard.Page.BeginAnalyzeFit | src/pages/Dashboard.tsx:97-103 | starts the analysis and clears the score; the description is written back iff there is a user and it differs from the stored one |
| Dashboard.Page.FinishAnalyzeFit | src/pages/Dashboard.tsx:105-110 | the timer sets the fit score for the draw and ends the analysis |
| Dashboard.Page.SaveIdea | src/pages/Dashboard.tsx:113-142 | nothing is inserted without a user or an idea; otherwise exactly one `ideas` row with the shown data and fit score, unless the insert fails |
| Dashboard.Page.CopyAndOpenBuilders | src/pages/Dashboard.tsx:160-169 | the builders open whether or not the copy succeeded |
| Navigation.TabsFor | src/components/layout/Header.tsx:18-63 | both tabs with a session, only Ideas without one |
| Navigation.FindIndex | src/components/layout/Header.tsx:47-50 | the first item whose link is the path, or none iff no item matches |
| Navigation.TabTarget | src/components/layout/Header.tsx:33-41 | no index gives no navigation; the Profile tab without a session goes to `/login`; any other tab goes to its link |
| Navigation.ActiveTabIndex | src/components/layout/Header.tsx:43-51 | no tab on `/profile` without a session, else the first tab whose link is the path |
| Navigation.ActiveTabIsOffered | src/components/layout/Header.tsx:43-63 | the highlighted tab is always one of the tabs offered |
| Navigation.ChosenTabBecomesActive | src/components/layout/Header.tsx:33-51 | choosing an offered tab leads to a page on which that tab is highlighted |
| Navigation.ProfileWithoutSessionGoesToLogin | src/components/layout/Header.tsx:35-46 | without a session the Profile tab leads to `/login`, which highlights no tab |
| Navigation.HeaderRowShowsAllTabs | src/components/layout/Header.tsx:62-65 | the header's tab row shows every offered tab, no "+n" indicator, and highlights exactly the active tab |
| ExpandableTabs.Selection | src/components/ui/expandable-tabs.tsx:23-87 | without the prop the selection is 0; `null` selects nothing; an index selects itself |
| ExpandableTabs.SelectionIsUnique | src/components/ui/expandable-tabs.tsx:23-87 | at most one tab is highlighted; `null` highlights none; without the prop exactly the first |
| ExpandableTabs.VisibleTabs | src/components/ui/expandable-tabs.tsx:66 | all tabs when expanded, else the first min(3, n), always a prefix of the tabs |
| ExpandableTabs.OverflowLabel | src/components/ui/expandable-tabs.tsx:124 | the indicator reads `+` followed by the digits of n − 3 |
| ExpandableTabs.IndicatorCountsHidden | src/components/ui/expandable-tabs.tsx:66-124 | the visible tabs plus the indicator's number make up all the tabs |
| ExpandableTabs.TabClick | src/components/ui/expandable-tabs.tsx:31-35 | the index is reported iff a handler is given |
| ExpandableTabs.ScrollTarget | src/components/ui/expandable-tabs.tsx:49-54 | the scroll target is never negative, and is the centring offset whenever that is not negative |
| ExpandableTabs.ExpandedIsAbsorbing | src/components/ui/expandable-tabs.tsx:112-126 | once expanded, the row never collapses again, whatever the user does |
| ExpandableTabs.FewTabsNeverExpand | src/components/ui/expandable-tabs.tsx:67-115 | with three tabs or fewer the row never expands |
| ExpandableTabs.TabRow.constructor | src/components/ui/expandable-tabs.tsx:26-27 | the row starts collapsed and unscrolled |
| ExpandableTabs.TabRow.PressIndicator | src/components/ui/expandable-tabs.tsx:112-115 | the button expands the row iff it is shown, that is iff there are more than three tabs |
| ExpandableTabs.TabRow.Scrolled | src/components/ui/expandable-tabs.tsx:37-41 | the scroll position is remembered |
| ExpandableTabs.TabRow.ClickTab | src/components/ui/expandable-tabs.tsx:31-93 | a click on a visible tab reports its index to the handler, if there is one |
| HealthMetrics.ProgressColor | src/components/ideas/IdeaHealthMetrics.tsx:29-33 | green iff above 75, yellow iff in (50, 75], red iff 50 or below |
| HealthMetrics.ColorMonotone | src/components/ideas/IdeaHealthMetrics.tsx:29-33 | a higher value never gets a worse colour |
| HealthMetrics.Label | src/components/ideas/IdeaHealthMetrics.tsx:44 | the label is never shorter than the key |
| HealthMetrics.LabelKeepsLowerKey | src/components/ideas/IdeaHealthMetrics.tsx:44 | a key without capitals is shown as it is |
| HealthMetrics.LabelRoundTrip | src/components/ideas/IdeaHealthMetrics.tsx:44 | a key without spaces can be read back from its label, so no two keys share a label |
| HealthMetrics.LabelConcat | src/components/ideas/IdeaHealthMetrics.tsx:44 | the replacement works character by character: the label of a concatenation is the concatenation of the labels |
| HealthMetrics.SpaceBeforeEachCapital | src/components/ideas/IdeaHealthMetrics.tsx:44 | a space is inserted before every capital letter, wherever it stands, and other characters are kept |
| HealthMetrics.Card | src/components/ideas/IdeaHealthMetrics.tsx:16-47 | no data gives the placeholder; otherwise one row per metric, in key order, with its label, its value followed by `%`, and its colour |
| HealthMetrics.ValueTextDetermined | src/components/ideas/IdeaHealthMetrics.tsx:45 | two rows show the same value text only for the same value |
| Hero.Next | src/components/ui/animated-hero.tsx:19-24 | a tick moves the counter to the next title, wrapping from the last to the first, and keeps it below five |
| Hero.TicksAdvance | src/components/ui/animated-hero.tsx:18-27 | after `k` ticks the counter has moved `k` places round the five titles |
| Hero.PeriodFive | src/components/ui/animated-hero.tsx:13-24 | five ticks bring the counter back, and no fewer do |
| Hero.TitlePose | src/components/ui/animated-hero.tsx:50-60 | a title is visible iff it is the counter's; hidden titles wait 150 above when before the counter, else 150 below |
| Hero.OneTitleVisible | src/components/ui/animated-hero.tsx:44-60 | exactly one title is visible at any time |
| Hero.Banner.constructor | src/components/ui/animated-hero.tsx:11 | the counter starts at 0 |
| Hero.Banner.Tick | src/components/ui/animated-hero.tsx:18-27 | the timer advances the counter and keeps it among the titles |
| IdeaForm.Errors | src/components/ideacapture/IdeaForm.tsx:17-22 | each field's error is reported iff the field is too short (title and market under 2, problem and solution under 10), with its own message; no error iff all four pass |
| IdeaForm.DefaultsFail | src/components/ideacapture/IdeaForm.tsx:34-39 | the empty defaults fail on all four fields |
| IdeaForm.Submit | src/components/ideacapture/IdeaForm.tsx:110 | the values reach `onSubmit` iff no analysis is running and every field passes |
| KeywordForm.Errors | src/components/ideagen/KeywordForm.tsx:16-18 | a keyword passes iff it has at least 2 characters, and otherwise gets its fixed message |
| KeywordForm.DefaultFails | src/components/ideagen/KeywordForm.tsx:30-32 | the empty default is rejected with that message |
| KeywordForm.Submit | src/components/ideagen/KeywordForm.tsx:57 | the keyword reaches `onSubmit` iff no generation is running and it passes |
| ProfilePage.NameRule | src/pages/Profile.tsx:17-18 | a name passes iff it is empty or has at least 2 characters |
| ProfilePage.EmptyFormValid | src/pages/Profile.tsx:19-35 | the empty form passes, and the skills text is never checked |
| ProfilePage.OrEmpty | src/pages/Profile.tsx:54-56 | a null column loads as `""`, any other value as itself |
| ProfilePage.FormOf | src/pages/Profile.tsx:53-57 | the form is filled field by field from the stored profile |
| ProfilePage.Updated | src/pages/Profile.tsx:70-72 | the update writes the three form values and `updated_at`, and keeps the subscription |
| ProfilePage.SaveLoadRoundTrip | src/pages/Profile.tsx:53-72 | a saved form loads back unchanged |
| ProfilePage.Page.constructor | src/pages/Profile.tsx:25-36 | the page starts loading with the empty form and no user |
| ProfilePage.Page.FetchProfile | src/pages/Profile.tsx:38-61 | a signed-in user's stored profile fills the form; an error or a missing row keeps the form; loading ends |
| ProfilePage.Page.Submit | src/pages/Profile.tsx:66-83 | no user, invalid values, a hidden form or a disabled button change nothing; otherwise only the user's row is updated, if it exists and the update succeeds; submitting ends |

## Left out

- Network, logging, toasts, the clipboard, the file download and CORS headers are I/O. Only their effect on the modelled state is kept.
- `generate-idea` and `create-paypal-order` are not part of this model. Their answers are the `generation` and `payment` parameters.
- Concurrency is not modelled. Examples are two purchases of the same idea racing, or a fit timer firing after a new idea was fetched. Each handler runs alone, and each timer is a separate method.
- Floating point is not modelled:
  - the health values are integers;
  - the scroll offsets are reals, so rounding to pixels is not captured;
  - the cache age is compared in integer milliseconds rather than fractional hours, which is equivalent for `< 24`;
  - the trend numbers `GoogleTrend.interest` and `RedditMention.mentions` are integers. JavaScript numbers may be fractional, and a value such as 72.5 prints as `72.5` in the exported report, a case `Decimal` does not cover.
- String length counts Unicode characters, not UTF-16 code units. A title made of characters outside the Basic Multilingual Plane can therefore pass a `min(2)` check in JavaScript that it fails here.
- DailyIdeas.Decide: the message of an exception thrown for a `null` body is the text a JavaScript engine gives, which is engine-dependent.
- The `daily_ideas` table appears twice: as the ordered `DailyIdeasTable.rows` that `get-daily-idea` scans, and as the map `Purchase.Backend.dailyIdeas` that `capture-paypal-order` looks up by `id`. They are the same table indexed by `id`, and each handler is modelled alone, so no lemma relates the two views.
- DailyIdeas.LatestAvailable: when two available rows have the same `generated_at`, the database's order is unspecified. The model picks the last one inserted.
- Purchase.Backend.CaptureOrder: the messages for a body that is not JSON (`Unexpected request body`) and for a `null` body (`Cannot destructure the request body`) stand for the exception text that the JavaScript engine produces at `supabase/functions/capture-paypal-order/index.ts:22`. That text depends on the engine, so only the status 400 and the fact that nothing changes are faithful.
- DailyIdeas.DailyIdeasTable.Insert: the insert at `supabase/functions/get-daily-idea/index.ts:60-64` leaves `generated_at` to the database's default. The model assumes the default equals the handler's clock `now`. The database clock and any skew between the two clocks are not modelled.
- Purchase.Backend.CaptureOrder: request fields of another JSON type are not modelled: a number as `orderID`, say, or a string as `ideaId`. Nor are PayPal's receipt contents, or a second capture of the same order.
- Dashboard.BuilderPrompt: `encodeURIComponent` is the parameter `encode`. Nothing is proved about the encoding itself. The builder links that use the prompt are not modelled.
- Dashboard.Panels: only which panels appear and in what order is modelled, not their layout. The props the Dashboard passes to `FounderFitQuiz` are not modelled. They are names the quiz component does not declare. The quiz is modelled from its own file. As written, `src/pages/Dashboard.tsx:223-229` passes no `onScoreChange`. The quiz's mount effect calls `onScoreChange(null)` (`src/components/founderfit/FounderFitQuiz.tsx:22-26`), so it would throw as soon as a pro user's Dashboard mounts. The model's quiz is given a callback.
- The Dashboard's `checkUserAndProfile` effect, the profile prompt banner and the corrupted text after line 336 of `src/pages/Dashboard.tsx` are not part of this model.
- Navigation.TabTarget: it requires the index to be one of the two navigation items. `handleTabChange` is only ever called with the index of a tab it offered.
- The CSS `capitalize` class on the health-metric labels is presentation and is not modelled. `Label` gives the text before styling.
- ProfilePage.Page.Submit: the message shown for an invalid name is not modelled, only validity. The schema's union with the empty literal makes that message depend on the resolver library. The `updated_at` timestamp is the parameter `now`.
- The other pages, the auth plumbing and the purely presentational components are not part of this model.
