/** Shared vocabulary of the IdeaLab application: the generated idea payload,
    the rows of the `ideas` and `profiles` tables, and the two number
    conversions the user interface relies on (JavaScript's `Math.round` of a
    ratio and the decimal rendering of an integer in a template string). */
module Domain {

  datatype Option<T> = None | Some(value: T)

  type UserId = string

  /** A JSON document the application stores and copies without looking
      inside it (idea attributes, value ladder). */
  type JsonText = string

  /** The four user-facing fields of an idea (`IdeaFormValues`). */
  datatype IdeaCore = IdeaCore(title: string, problem: string, solution: string, market: string)

  /** `AnalysisData`: the AI analysis of an idea. */
  datatype Analysis = Analysis(
    problem: string, opportunity: string, targetAudience: string, competitors: string,
    revenuePotential: string, risks: string, whyNow: string)

  datatype GoogleTrend = GoogleTrend(name: string, interest: int)
  datatype RedditMention = RedditMention(name: string, mentions: int)

  /** `TrendData`. */
  datatype Trends = Trends(googleTrends: seq<GoogleTrend>, redditMentions: seq<RedditMention>)

  datatype LandingPageCopy = LandingPageCopy(headline: string, subheadline: string, cta: string)

  /** `GoToMarketData`. */
  datatype GoToMarket = GoToMarket(
    landingPageCopy: LandingPageCopy, brandNameSuggestions: seq<string>, adCreativeIdeas: seq<string>)

  /** The health-metrics object, as its entries in key order. */
  type Metrics = seq<(string, int)>

  /** The seven-key document the idea generator returns (`idea_data`). */
  datatype IdeaData = IdeaData(
    idea: IdeaCore, analysis: Option<Analysis>, trends: Option<Trends>,
    goToMarket: Option<GoToMarket>, attributes: Option<JsonText>,
    healthMetrics: Option<Metrics>, valueLadder: Option<JsonText>)

  /** A row of the `ideas` table (an idea owned by one user), without the
      id the database assigns to it. */
  datatype OwnedIdea = OwnedIdea(
    userId: UserId, title: string, problem: string, solution: string, market: string,
    analysis: Option<Analysis>, trendData: Option<Trends>, goToMarket: Option<GoToMarket>,
    attributes: Option<JsonText>, healthMetrics: Option<Metrics>, valueLadder: Option<JsonText>,
    fitScore: Option<int>)

  /** A row of the `profiles` table; every column is nullable. */
  datatype Profile = Profile(
    firstName: Option<string>, lastName: Option<string>, skills: Option<string>,
    subscription: Option<string>, updatedAt: Option<string>)

  /** JavaScript's `Math.round(num / den)` for a positive denominator:
      the nearest integer, halves rounded up. */
  function RoundDiv(num: int, den: int): (r: int)
    requires den > 0
    ensures 2 * den * r <= 2 * num + den < 2 * den * (r + 1)
  {
    (2 * num + den) / (2 * den)
  }

  predicate IsDigit(c: char) { '0' <= c <= '9' }

  predicate AllDigits(s: string) { forall i :: 0 <= i < |s| ==> IsDigit(s[i]) }

  function DigitChar(d: nat): (c: char)
    requires d < 10
    ensures IsDigit(c) && c as int - '0' as int == d
  {
    ('0' as int + d) as char
  }

  /** The decimal digits of a natural number, most significant first. */
  function NatDigits(n: nat): (r: string)
    ensures |r| >= 1 && AllDigits(r)
    ensures r[0] == '0' ==> n == 0
  {
    if n < 10 then [DigitChar(n)] else NatDigits(n / 10) + [DigitChar(n % 10)]
  }

  /** The value of a string of decimal digits. */
  function DigitsValue(s: string): nat
    requires AllDigits(s)
  {
    if s == [] then 0 else DigitsValue(s[..|s| - 1]) * 10 + (s[|s| - 1] as int - '0' as int)
  }

  /** `${n}` for an integer `n`. */
  function Decimal(n: int): (r: string)
    ensures |r| >= 1
    ensures r[0] == '-' <==> n < 0
  {
    if n < 0 then "-" + NatDigits(-n) else NatDigits(n)
  }

  /** Reading the digits back gives the number: the rendering loses nothing. */
  lemma {:induction false} NatDigitsRoundTrip(n: nat)
    ensures DigitsValue(NatDigits(n)) == n
  {
    if n >= 10 {
      NatDigitsRoundTrip(n / 10);
      var s := NatDigits(n);
      assert s[..|s| - 1] == NatDigits(n / 10);
    }
  }

  /** Two naturals with the same digits are equal. */
  lemma NatDigitsInjective(a: nat, b: nat)
    requires NatDigits(a) == NatDigits(b)
    ensures a == b
  {
    NatDigitsRoundTrip(a);
    NatDigitsRoundTrip(b);
  }

  /** A minus sign in front can be taken off again. */
  lemma DropSign(x: string, y: string)
    requires "-" + x == "-" + y
    ensures x == y
  {
    assert x == ("-" + x)[1..];
    assert y == ("-" + y)[1..];
  }

  /** Two integers render the same only if they are equal. */
  lemma DecimalInjective(a: int, b: int)
    requires Decimal(a) == Decimal(b)
    ensures a == b
  {
    if a < 0 {
      DropSign(NatDigits(-a), NatDigits(-b));
      NatDigitsInjective(-a, -b);
    } else {
      NatDigitsInjective(a, b);
    }
  }

  /** A validation error of one form field, as the form shows it. */
  datatype FieldError = FieldError(field: string, message: string)

  /** A string rule with a minimum length (a `min` rule of the schema
      library): the error when `s` is shorter than `min`. */
  function CheckMin(field: string, s: string, min: nat, message: string): (r: seq<FieldError>)
    ensures r == [] <==> |s| >= min
    ensures r != [] ==> r == [FieldError(field, message)]
  {
    if |s| < min then [FieldError(field, message)] else []
  }
}
