/**
 * The API backend's own rules: the DATABASE_URL cleanup and scheme check,
 * the lead scorer used when a lead is created through the API, the
 * data-quality buckets of the dashboard chart, the lead listing query and
 * the lead table with its duplicate check.
 */
module Backend {
  import opened Wrappers
  import opened Values
  import opened Text
  import AiScorer

  // ================================================================ DATABASE_URL

  const SqliteDefault: string := "sqlite:///./lead_intelligence.db"

  /** The schemes the backend accepts, in the order it lists them. */
  const ValidSchemes: seq<string> := ["sqlite://", "postgresql://", "postgres://", "mysql://", "mysql+pymysql://"]

  predicate IsDoubleQuote(c: char) { c == '"' }

  predicate IsSingleQuote(c: char) { c == '\'' }

  /** `s.strip('"').strip("'").strip()`. */
  function Unquote(s: string): string {
    Strip(Trim(Trim(s, IsDoubleQuote), IsSingleQuote))
  }

  /** An unresolved `${...}` (or `${{...}}`) reference counts as unset. */
  function DropReference(raw: string): string {
    if raw != [] && StartsWith(raw, "${") then "" else raw
  }

  /** A single leading `=` is dropped, and what follows it stripped. */
  function DropEquals(raw: string): string {
    if StartsWith(raw, "=") then Strip(raw[1..]) else raw
  }

  /** `postgres://` becomes `postgresql://`. */
  function Rescheme(u: string): string {
    if StartsWith(u, "postgres://") then "postgresql://" + u[|"postgres://"|..] else u
  }

  /** What `DATABASE_URL` becomes after the cleanup, stage by stage. */
  function CleanedDatabaseUrl(env: string): string {
    var raw := DropReference(Strip(env));
    if raw == [] then SqliteDefault
    else
      var url := Rescheme(Unquote(DropEquals(raw)));
      if url == [] then SqliteDefault else url
  }

  /** The cleanup, as the configuration code runs it: one reassignment after another. */
  method NormaliseDatabaseUrl(env: string) returns (url: string)
    ensures url == CleanedDatabaseUrl(env)
    ensures WellFormedUrl(url)
  {
    var raw := Strip(env);
    ghost var stripped := raw;
    if raw != [] && (StartsWith(raw, "${{") || StartsWith(raw, "${")) {
      raw := "";
    }
    assert raw == DropReference(stripped) by {
      DoubleBraceIsReference(stripped);
    }
    if raw != [] {
      ghost var unreferenced := raw;
      if StartsWith(raw, "=") {
        raw := Strip(raw[1..]);
      }
      assert raw == DropEquals(unreferenced);
      raw := Strip(Trim(Trim(raw, IsDoubleQuote), IsSingleQuote));
      ghost var unquoted := raw;
      if StartsWith(raw, "postgres://") {
        raw := "postgresql://" + raw[|"postgres://"|..];
      }
      assert raw == Rescheme(unquoted);
    }
    if raw == [] {
      url := SqliteDefault;
    } else {
      url := raw;
    }
    CleanedUrlShape(env);
  }

  /** `${{` is caught by the `${` test as well. */
  lemma DoubleBraceIsReference(s: string)
    ensures StartsWith(s, "${{") ==> StartsWith(s, "${")
  {
    if StartsWith(s, "${{") {
      assert s[..2] == s[..3][..2];
    }
  }

  lemma DefaultShape()
    ensures SqliteDefault != [] && !IsSpace(SqliteDefault[0]) && !IsSpace(SqliteDefault[|SqliteDefault| - 1])
    ensures !StartsWith(SqliteDefault, "postgres://")
  {
    assert SqliteDefault[0] == 's';
  }

  /** A non-empty unquoted value has no surrounding whitespace, and the rewrite keeps it that way. */
  lemma ReschemeShape(u: string)
    requires u == [] || (!IsSpace(u[0]) && !IsSpace(u[|u| - 1]))
    ensures var url := Rescheme(u);
      (url == [] <==> u == []) && (url != [] ==> !IsSpace(url[0]) && !IsSpace(url[|url| - 1]))
      && !StartsWith(url, "postgres://")
  {
    if StartsWith(u, "postgres://") {
      var url := "postgresql://" + u[|"postgres://"|..];
      assert url[8] == 'q' && "postgres://"[8] == ':';
      assert url[|url| - 1] == u[|u| - 1];
    }
  }

  lemma UnquoteShape(s: string)
    ensures var u := Unquote(s); u == [] || (!IsSpace(u[0]) && !IsSpace(u[|u| - 1]))
  {
    var t := Trim(Trim(s, IsDoubleQuote), IsSingleQuote);
    assert Unquote(s) == Strip(t);
  }

  /** Non-empty, no surrounding whitespace, and not the `postgres://` spelling. */
  predicate WellFormedUrl(url: string) {
    url != [] && !IsSpace(url[0]) && !IsSpace(url[|url| - 1]) && !StartsWith(url, "postgres://")
  }

  /** The cleaned URL is always well formed. */
  lemma CleanedUrlShape(env: string)
    ensures WellFormedUrl(CleanedDatabaseUrl(env))
  {
    DefaultShape();
    assert WellFormedUrl(SqliteDefault);
    var raw := DropReference(Strip(env));
    if raw != [] {
      var u := Unquote(DropEquals(raw));
      UnquoteShape(DropEquals(raw));
      ReschemeShape(u);
      var url := Rescheme(u);
      if url != [] {
        assert WellFormedUrl(url);
        assert CleanedDatabaseUrl(env) == url;
      } else {
        assert CleanedDatabaseUrl(env) == SqliteDefault;
      }
    } else {
      assert CleanedDatabaseUrl(env) == SqliteDefault;
    }
  }

  /** A value that needs no cleanup: no surrounding whitespace or quotes, no leading `=`, no reference, no old scheme spelling. */
  predicate IsCleanUrl(u: string) {
    && u != []
    && !IsSpace(u[0]) && u[0] != '"' && u[0] != '\'' && u[0] != '='
    && !IsSpace(u[|u| - 1]) && u[|u| - 1] != '"' && u[|u| - 1] != '\''
    && !StartsWith(u, "${")
    && !StartsWith(u, "postgres://")
  }

  /** Every stage after the first leaves a clean value alone. */
  lemma CleanUrlStagesKeep(u: string)
    requires IsCleanUrl(u)
    ensures DropReference(u) == u && DropEquals(u) == u && Unquote(u) == u && Rescheme(u) == u
  {
    NoEqualsPrefix(u);
    UnquoteClean(u);
  }

  lemma NoEqualsPrefix(u: string)
    requires IsCleanUrl(u)
    ensures DropEquals(u) == u
  {
    assert u[..1][0] == u[0];
  }

  lemma UnquoteClean(u: string)
    requires IsCleanUrl(u)
    ensures Unquote(u) == u
  {
    assert Trim(u, IsDoubleQuote) == u;
    assert Trim(u, IsSingleQuote) == u;
    assert Strip(u) == u;
  }

  /** A clean value survives the cleanup unchanged, whatever whitespace surrounds it. */
  lemma CleanUrlKept(u: string, w1: string, w2: string)
    requires IsCleanUrl(u)
    requires forall k :: 0 <= k < |w1| ==> IsSpace(w1[k])
    requires forall k :: 0 <= k < |w2| ==> IsSpace(w2[k])
    ensures CleanedDatabaseUrl(w1 + u + w2) == u
  {
    TrimSurrounded(w1, u, w2, IsSpace);
    CleanUrlStagesKeep(u);
  }

  lemma EqualsPrefixKept(u: string)
    requires IsCleanUrl(u)
    ensures DropReference(Strip("=" + u)) == "=" + u
  {
    var s := "=" + u;
    assert s[0] == '=' && s[|s| - 1] == u[|u| - 1];
    assert Strip(s) == s;
    assert s[..2][0] == '=';
  }

  lemma EqualsPrefixDropped(u: string)
    requires IsCleanUrl(u)
    ensures DropEquals("=" + u) == u
  {
    var s := "=" + u;
    assert s[..1] == "=" && s[1..] == u;
    CleanUrlStagesKeep(u);
  }

  /** A single leading `=` is dropped. */
  lemma LeadingEqualsDropped(u: string)
    requires IsCleanUrl(u)
    ensures CleanedDatabaseUrl("=" + u) == u
  {
    EqualsPrefixKept(u);
    EqualsPrefixDropped(u);
    CleanUrlStagesKeep(u);
  }

  /** Surrounding double or single quotes are dropped. */
  lemma QuotesDropped(u: string)
    requires IsCleanUrl(u)
    ensures CleanedDatabaseUrl("\"" + u + "\"") == u
    ensures CleanedDatabaseUrl("'" + u + "'") == u
  {
    QuotedStages("\"", u);
    QuotedStages("'", u);
  }

  lemma QuotedStages(quote: string, u: string)
    requires quote == "\"" || quote == "'"
    requires IsCleanUrl(u)
    ensures CleanedDatabaseUrl(quote + u + quote) == u
  {
    QuotedPrefixStages(quote, u);
    UnquoteQuoted(quote, u);
    CleanUrlStagesKeep(u);
  }

  lemma QuotedPrefixStages(quote: string, u: string)
    requires quote == "\"" || quote == "'"
    requires IsCleanUrl(u)
    ensures DropEquals(DropReference(Strip(quote + u + quote))) == quote + u + quote
  {
    var d := quote + u + quote;
    assert d[0] == quote[0] && d[|d| - 1] == quote[0];
    assert Strip(d) == d;
    assert d[..2][0] == quote[0];
    assert d[..1][0] == quote[0];
  }

  lemma UnquoteQuoted(quote: string, u: string)
    requires quote == "\"" || quote == "'"
    requires IsCleanUrl(u)
    ensures Unquote(quote + u + quote) == u
  {
    assert PlainEnds(u);
    if quote == "\"" {
      UnquoteDoubleQuoted(u);
    } else {
      UnquoteSingleQuoted(u);
    }
  }

  /** Neither quote kind nor whitespace at either end. */
  predicate PlainEnds(u: string) {
    && u != []
    && !IsSpace(u[0]) && u[0] != '"' && u[0] != '\''
    && !IsSpace(u[|u| - 1]) && u[|u| - 1] != '"' && u[|u| - 1] != '\''
  }

  /** Once the quote stripping has reached a plain-ended value, the rest of the unquoting keeps it. */
  lemma UnquoteAfterQuotes(d: string, u: string)
    requires Trim(Trim(d, IsDoubleQuote), IsSingleQuote) == u && PlainEnds(u)
    ensures Unquote(d) == u
  {
    assert Strip(u) == u;
  }

  /** A value wrapped in a character that a trim does not remove is left as it is by that trim. */
  lemma OtherQuoteKept(q: char, u: string, cs: char -> bool)
    requires !cs(q)
    ensures Trim([q] + u + [q], cs) == [q] + u + [q]
  {
    var d := [q] + u + [q];
    assert d[0] == q && d[|d| - 1] == q;
  }

  /** A plain value wrapped in one character that a trim removes comes out of that trim unwrapped. */
  lemma OwnQuoteDropped(q: char, u: string, cs: char -> bool)
    requires cs(q)
    requires u != [] && !cs(u[0]) && !cs(u[|u| - 1])
    ensures Trim([q] + u + [q], cs) == u
  {
    TrimSurrounded([q], u, [q], cs);
  }

  /** A plain value wrapped in a quote of the second trim passes the first trim unchanged and loses the quote in the second. */
  lemma InnerQuoteDropped(q: char, u: string, outer: char -> bool, inner: char -> bool)
    requires !outer(q) && inner(q)
    requires u != [] && !inner(u[0]) && !inner(u[|u| - 1])
    ensures Trim(Trim([q] + u + [q], outer), inner) == u
  {
    OtherQuoteKept(q, u, outer);
    OwnQuoteDropped(q, u, inner);
  }

  lemma UnquoteDoubleQuoted(u: string)
    requires PlainEnds(u)
    ensures Unquote("\"" + u + "\"") == u
  {
    var d := "\"" + u + "\"";
    assert Trim(d, IsDoubleQuote) == u by {
      OwnQuoteDropped('"', u, IsDoubleQuote);
    }
    assert Trim(u, IsSingleQuote) == u;
    UnquoteAfterQuotes(d, u);
  }

  lemma UnquoteSingleQuoted(u: string)
    requires PlainEnds(u)
    ensures Unquote("'" + u + "'") == u
  {
    var d := "'" + u + "'";
    InnerQuoteDropped('\'', u, IsDoubleQuote, IsSingleQuote);
    UnquoteAfterQuotes(d, u);
  }

  /** An unresolved `${...}` reference falls back to SQLite. */
  lemma UnresolvedReferenceFallsBack(rest: string)
    ensures CleanedDatabaseUrl("${" + rest) == SqliteDefault
  {
    var s := "${" + rest;
    assert s[0] == '$' && s[1] == '{';
    var t := Strip(s);
    assert TrimStart(s, IsSpace) == s;
    assert t == s[..|t|];
    assert !IsSpace(s[1]);
    TrimEndDropsOnly(s, IsSpace);
    if t != [] {
      assert |t| >= 2;
      assert t[..2] == s[..2] == "${";
      assert DropReference(t) == [];
    }
  }

  /** The Heroku-style `postgres://` spelling becomes `postgresql://`, the rest kept. */
  lemma PostgresSchemeRewritten(u: string)
    requires PlainPostgresUrl(u)
    ensures CleanedDatabaseUrl(u) == "postgresql://" + u[|"postgres://"|..]
  {
    var url := "postgresql://" + u[|"postgres://"|..];
    assert Rescheme(Unquote(DropEquals(DropReference(Strip(u))))) == url by {
      PostgresPrefixKept(u);
      PostgresUnquoteKept(u);
    }
    assert DropReference(Strip(u)) != [] by {
      PostgresPrefixKept(u);
    }
    CleanedByStages(u, url);
  }

  /** The cleanup result when the value survives the reference check and the later stages leave something. */
  lemma CleanedByStages(env: string, url: string)
    requires DropReference(Strip(env)) != []
    requires Rescheme(Unquote(DropEquals(DropReference(Strip(env))))) == url && url != []
    ensures CleanedDatabaseUrl(env) == url
  {
  }

  /** A plainly written `postgres://` value passes the stages before the rewrite untouched. */
  predicate PlainPostgresUrl(s: string) {
    && StartsWith(s, "postgres://")
    && !IsSpace(s[|s| - 1]) && s[|s| - 1] != '"' && s[|s| - 1] != '\''
  }

  lemma PostgresPrefixKept(s: string)
    requires PlainPostgresUrl(s)
    ensures DropReference(Strip(s)) == s && DropEquals(s) == s
  {
    assert s[0] == 'p';
    assert Strip(s) == s;
    assert s[..2][0] == 'p';
    assert s[..1][0] == 'p';
  }

  lemma PostgresUnquoteKept(s: string)
    requires PlainPostgresUrl(s)
    ensures Unquote(s) == s
  {
    assert s[0] == 'p';
    assert Trim(s, IsDoubleQuote) == s;
    assert Trim(s, IsSingleQuote) == s;
    assert Strip(s) == s;
  }

  lemma PlainPostgres(rest: string)
    requires rest == [] || (!IsSpace(rest[|rest| - 1]) && rest[|rest| - 1] != '"' && rest[|rest| - 1] != '\'')
    ensures PlainPostgresUrl("postgres://" + rest)
  {
    var s := "postgres://" + rest;
    assert s[..11] == "postgres://";
    assert s[|s| - 1] == (if rest == [] then '/' else rest[|rest| - 1]);
  }

  /** A `postgres://` value with a plain ending is rewritten, the rest kept. */
  lemma PostgresPrefixRewritten(rest: string)
    requires rest == [] || (!IsSpace(rest[|rest| - 1]) && rest[|rest| - 1] != '"' && rest[|rest| - 1] != '\'')
    ensures CleanedDatabaseUrl("postgres://" + rest) == "postgresql://" + rest
  {
    var s := "postgres://" + rest;
    assert s[|"postgres://"|..] == rest;
    assert CleanedDatabaseUrl(s) == "postgresql://" + s[|"postgres://"|..] by {
      PlainPostgres(rest);
      PostgresSchemeRewritten(s);
    }
  }

  datatype ConfigError = EmptyDatabaseUrl | InvalidScheme(received: string)

  predicate HasValidScheme(url: string) {
    exists scheme :: scheme in ValidSchemes && StartsWith(url, scheme)
  }

  /** The startup check: an empty value or an unknown scheme stops the backend; the message shows at most 50 characters. */
  function CheckDatabaseUrl(url: string): (r: Result<string, ConfigError>)
    ensures r.Success? <==> Strip(url) != [] && HasValidScheme(url)
    ensures r.Success? ==> r.value == url
    ensures r.Failure? && r.error.InvalidScheme? ==> |r.error.received| <= 50 && StartsWith(url, r.error.received)
  {
    if url == [] || |Strip(url)| == 0 then Failure(EmptyDatabaseUrl)
    else if HasValidScheme(url) then Success(url)
    else Failure(InvalidScheme(url[..if |url| < 50 then |url| else 50]))
  }

  function ConfigureDatabaseUrl(env: string): Result<string, ConfigError> {
    CheckDatabaseUrl(CleanedDatabaseUrl(env))
  }

  /**
   * On a well-formed URL the emptiness check never fires and the
   * `postgres://` entry of the scheme list never matches: the URL is
   * accepted exactly when it starts with one of the other four schemes.
   */
  lemma CheckWellFormedUrl(url: string)
    requires WellFormedUrl(url)
    ensures CheckDatabaseUrl(url) != Failure(EmptyDatabaseUrl)
    ensures CheckDatabaseUrl(url).Success? <==>
      StartsWith(url, "sqlite://") || StartsWith(url, "postgresql://")
      || StartsWith(url, "mysql://") || StartsWith(url, "mysql+pymysql://")
  {
    assert Strip(url) == url;
    if StartsWith(url, "sqlite://") { assert ValidSchemes[0] == "sqlite://"; }
    if StartsWith(url, "postgresql://") { assert ValidSchemes[1] == "postgresql://"; }
    if StartsWith(url, "mysql://") { assert ValidSchemes[3] == "mysql://"; }
    if StartsWith(url, "mysql+pymysql://") { assert ValidSchemes[4] == "mysql+pymysql://"; }
  }

  /** Whatever DATABASE_URL holds, the startup check can only object to its scheme. */
  lemma ConfigureDatabaseUrlOutcome(env: string)
    ensures ConfigureDatabaseUrl(env) != Failure(EmptyDatabaseUrl)
    ensures ConfigureDatabaseUrl(env).Success? <==>
      var url := CleanedDatabaseUrl(env);
      StartsWith(url, "sqlite://") || StartsWith(url, "postgresql://")
      || StartsWith(url, "mysql://") || StartsWith(url, "mysql+pymysql://")
  {
    CleanedUrlShape(env);
    CheckWellFormedUrl(CleanedDatabaseUrl(env));
  }

  lemma BlankUrlCleansToDefault(env: string)
    requires forall k :: 0 <= k < |env| ==> IsSpace(env[k])
    ensures CleanedDatabaseUrl(env) == SqliteDefault
  {
    StripBlank(env);
    assert DropReference([]) == [];
  }

  /** With DATABASE_URL unset or blank the backend runs on the local SQLite file. */
  lemma BlankUrlUsesSqlite(env: string)
    requires forall k :: 0 <= k < |env| ==> IsSpace(env[k])
    ensures ConfigureDatabaseUrl(env) == Success(SqliteDefault)
  {
    BlankUrlCleansToDefault(env);
    DefaultShape();
    CheckWellFormedUrl(SqliteDefault);
    assert StartsWith(SqliteDefault, "sqlite://");
  }

  // ================================================================ scoring of created leads

  /** The body of a create-lead request. */
  datatype LeadCreate = LeadCreate(
    businessName: string,
    phone: Option<string>,
    website: Option<string>,
    email: Option<string>,
    address: Option<string>,
    rating: Option<real>,
    reviewsCount: Option<int>,
    mapsUrl: string,
    category: Option<string>,
    searchQuery: string)

  datatype Scores = Scores(
    aiScore: int,
    priority: AiScorer.Priority,
    conversionProbability: int,
    revenuePotential: string,
    recommendedAction: string,
    dataQualityScore: int)

  const ActionA: string := "Call within 1 hour - High conversion probability"
  const ActionB: string := "Email today, follow up call tomorrow"
  const ActionC: string := "Add to nurture campaign"
  const RevenueA: string := "$10,000 - $50,000 LTV"
  const RevenueB: string := "$5,000 - $15,000 LTV"
  const RevenueC: string := "$1,000 - $5,000 LTV"

  /** `reviews_count` with a missing value read as 0. */
  function ReviewsOrZero(lead: LeadCreate): int {
    if lead.reviewsCount.Some? then lead.reviewsCount.value else 0
  }

  /** `rating` with a missing value read as 0. */
  function RatingOrZero(lead: LeadCreate): real {
    if lead.rating.Some? then lead.rating.value else 0.0
  }

  /** Business maturity, from the review count: at most 30. */
  function MaturityPoints(lead: LeadCreate): (p: int)
    ensures 0 <= p <= 30
  {
    var reviews := ReviewsOrZero(lead);
    if reviews > 100 then 30 else if reviews > 50 then 20 else if reviews > 10 then 10 else 0
  }

  /** Digital presence: at most 25. */
  function PresencePoints(lead: LeadCreate): (p: int)
    ensures 0 <= p <= 25
  {
    if TruthyText(lead.website) && TruthyText(lead.email) then 25
    else if TruthyText(lead.website) || TruthyText(lead.email) then 15
    else 0
  }

  /** Rating quality: at most 20. */
  function RatingQualityPoints(lead: LeadCreate): (p: int)
    ensures 0 <= p <= 20
  {
    var rating := RatingOrZero(lead);
    if rating >= 4.5 then 20 else if rating >= 4.0 then 15 else if rating >= 3.5 then 10 else 0
  }

  /** Contact completeness: at most 25. */
  function ContactPoints(lead: LeadCreate): (p: int)
    ensures 0 <= p <= 25
  {
    (if TruthyText(lead.phone) then 10 else 0)
    + (if TruthyText(lead.email) then 10 else 0)
    + (if TruthyText(lead.website) then 5 else 0)
  }

  function ApiAiScore(lead: LeadCreate): int {
    MaturityPoints(lead) + PresencePoints(lead) + RatingQualityPoints(lead) + ContactPoints(lead)
  }

  /** The parts are at most 30, 25, 20 and 25, so the score needs no clamp. */
  lemma ApiAiScoreRange(lead: LeadCreate)
    ensures 0 <= ApiAiScore(lead) <= 100
    ensures ApiAiScore(lead) == 100 <==>
      ReviewsOrZero(lead) > 100 && RatingOrZero(lead) >= 4.5
      && TruthyText(lead.phone) && TruthyText(lead.email) && TruthyText(lead.website)
  {
  }

  /** Data quality: 10, 25, 25, 20, 10, 5 and 5 points for the seven checked fields. */
  function ApiQualityScore(lead: LeadCreate): (q: int)
    ensures 0 <= q <= 100
    ensures q == 100 <==>
      && lead.businessName != "" && TruthyText(lead.phone) && TruthyText(lead.email)
      && TruthyText(lead.website) && TruthyText(lead.address)
      && TruthyReal(lead.rating) && TruthyInt(lead.reviewsCount)
  {
    (if lead.businessName != "" then 10 else 0)
    + (if TruthyText(lead.phone) then 25 else 0)
    + (if TruthyText(lead.email) then 25 else 0)
    + (if TruthyText(lead.website) then 20 else 0)
    + (if TruthyText(lead.address) then 10 else 0)
    + (if TruthyReal(lead.rating) then 5 else 0)
    + (if TruthyInt(lead.reviewsCount) then 5 else 0)
  }

  function TierAction(p: AiScorer.Priority): string {
    match p
    case A => ActionA
    case B => ActionB
    case C => ActionC
  }

  function TierRevenue(p: AiScorer.Priority): string {
    match p
    case A => RevenueA
    case B => RevenueB
    case C => RevenueC
  }

  /** The scores a created lead is stored with. */
  function ScoresFor(lead: LeadCreate): Scores {
    var score := ApiAiScore(lead);
    var priority := AiScorer.AssignPriority(score);
    Scores(score, priority, score, TierRevenue(priority), TierAction(priority), ApiQualityScore(lead))
  }

  /** The first part of `calculate_ai_score`: the four point groups added to `score` one after another. */
  method SumScorePoints(lead: LeadCreate) returns (score: int)
    ensures score == ApiAiScore(lead)
    ensures 0 <= score <= 100
  {
    score := 0;
    var reviews := if lead.reviewsCount.Some? then lead.reviewsCount.value else 0;
    if reviews > 100 {
      score := score + 30;
    } else if reviews > 50 {
      score := score + 20;
    } else if reviews > 10 {
      score := score + 10;
    }
    if TruthyText(lead.website) && TruthyText(lead.email) {
      score := score + 25;
    } else if TruthyText(lead.website) || TruthyText(lead.email) {
      score := score + 15;
    }
    var rating := if lead.rating.Some? then lead.rating.value else 0.0;
    if rating >= 4.5 {
      score := score + 20;
    } else if rating >= 4.0 {
      score := score + 15;
    } else if rating >= 3.5 {
      score := score + 10;
    }
    var contactScore := 0;
    if TruthyText(lead.phone) {
      contactScore := contactScore + 10;
    }
    if TruthyText(lead.email) {
      contactScore := contactScore + 10;
    }
    if TruthyText(lead.website) {
      contactScore := contactScore + 5;
    }
    score := score + contactScore;
    ApiAiScoreRange(lead);
  }

  /** The last part of `calculate_ai_score`: the quality points added to `quality_score` field by field. */
  method SumQualityPoints(lead: LeadCreate) returns (qualityScore: int)
    ensures qualityScore == ApiQualityScore(lead)
    ensures 0 <= qualityScore <= 100
  {
    qualityScore := 0;
    if lead.businessName != "" {
      qualityScore := qualityScore + 10;
    }
    if TruthyText(lead.phone) {
      qualityScore := qualityScore + 25;
    }
    if TruthyText(lead.email) {
      qualityScore := qualityScore + 25;
    }
    if TruthyText(lead.website) {
      qualityScore := qualityScore + 20;
    }
    if TruthyText(lead.address) {
      qualityScore := qualityScore + 10;
    }
    if TruthyReal(lead.rating) {
      qualityScore := qualityScore + 5;
    }
    if TruthyInt(lead.reviewsCount) {
      qualityScore := qualityScore + 5;
    }
  }

  /** `calculate_ai_score` of the API: the point sum, the tier with its fixed strings, and the quality points. */
  method CalculateAiScore(lead: LeadCreate) returns (s: Scores)
    ensures s == ScoresFor(lead)
    ensures 0 <= s.aiScore <= 100
    ensures s.conversionProbability == s.aiScore
    ensures s.priority == AiScorer.A <==> s.aiScore >= 80
    ensures s.priority == AiScorer.B <==> 60 <= s.aiScore < 80
    ensures s.priority == AiScorer.C <==> s.aiScore < 60
    ensures s.recommendedAction == TierAction(s.priority) && s.revenuePotential == TierRevenue(s.priority)
    ensures 0 <= s.dataQualityScore <= 100
  {
    var score := SumScorePoints(lead);
    var priority, action, revenue;
    if score >= 80 {
      priority, action, revenue := AiScorer.A, ActionA, RevenueA;
    } else if score >= 60 {
      priority, action, revenue := AiScorer.B, ActionB, RevenueB;
    } else {
      priority, action, revenue := AiScorer.C, ActionC, RevenueC;
    }
    var qualityScore := SumQualityPoints(lead);
    s := Scores(score, priority, score, revenue, action, qualityScore);
  }

  // ================================================================ quality buckets

  const QualityHigh: string := "High (80-100)"
  const QualityMedium: string := "Medium (60-79)"
  const QualityLow: string := "Low (40-59)"
  const QualityVeryLow: string := "Very Low (0-39)"

  /** The dashboard's data-quality bucket: the four labels partition the scores. */
  function QualityBucket(score: int): (bucket: string)
    ensures bucket == QualityHigh <==> score >= 80
    ensures bucket == QualityMedium <==> 60 <= score < 80
    ensures bucket == QualityLow <==> 40 <= score < 60
    ensures bucket == QualityVeryLow <==> score < 40
  {
    if score >= 80 then QualityHigh
    else if score >= 60 then QualityMedium
    else if score >= 40 then QualityLow
    else QualityVeryLow
  }

  /** A lead created with every checked field lands in the High bucket; one with only a name in Very Low. */
  lemma QualityBucketOfCreatedLeads(lead: LeadCreate)
    ensures ApiQualityScore(lead) == 100 ==> QualityBucket(ScoresFor(lead).dataQualityScore) == QualityHigh
    ensures !TruthyText(lead.phone) && !TruthyText(lead.email) && !TruthyText(lead.website)
            ==> QualityBucket(ScoresFor(lead).dataQualityScore) == QualityVeryLow
  {
  }

  // ================================================================ stored leads

  /** A row of the lead table, as `create_lead` fills it. */
  datatype Lead = Lead(
    fingerprint: string,
    businessName: string,
    phone: Option<string>,
    website: Option<string>,
    email: Option<string>,
    address: Option<string>,
    rating: Option<real>,
    reviewsCount: Option<int>,
    mapsUrl: string,
    category: Option<string>,
    searchQuery: string,
    aiScore: int,
    priority: string,
    conversionProbability: int,
    revenuePotential: string,
    recommendedAction: string,
    dataQualityScore: int,
    status: string)

  /** The uniqueness fingerprint: the lower-cased name with spaces as underscores, an underscore, the maps URL. */
  function Fingerprint(businessName: string, mapsUrl: string): (f: string)
    ensures |f| == |businessName| + 1 + |mapsUrl|
    ensures f[|businessName|] == '_' && f[|businessName| + 1..] == mapsUrl
    ensures ' ' !in f[..|businessName|]
  {
    ReplaceChar(Lower(businessName), ' ', '_') + "_" + mapsUrl
  }

  /** Names that differ only in letter case, or in spaces against underscores, share a fingerprint. */
  lemma FingerprintIgnoresCaseAndSpaces(name: string, mapsUrl: string)
    ensures Fingerprint(Lower(name), mapsUrl) == Fingerprint(name, mapsUrl)
    ensures Fingerprint(ReplaceChar(name, ' ', '_'), mapsUrl) == Fingerprint(name, mapsUrl)
  {
    assert ReplaceChar(Lower(Lower(name)), ' ', '_') == ReplaceChar(Lower(name), ' ', '_');
    assert ReplaceChar(Lower(ReplaceChar(name, ' ', '_')), ' ', '_') == ReplaceChar(Lower(name), ' ', '_');
  }

  /** Two different maps URLs can still give the same fingerprint. */
  lemma FingerprintCollision()
    ensures Fingerprint("a", "b_c") == Fingerprint("a_b", "c")
  {
    assert Lower("a") == "a" && ReplaceChar("a", ' ', '_') == "a";
    assert Lower("a_b") == "a_b" && ReplaceChar("a_b", ' ', '_') == "a_b";
  }

  function NewLead(data: LeadCreate): Lead {
    var s := ScoresFor(data);
    Lead(Fingerprint(data.businessName, data.mapsUrl), data.businessName, data.phone, data.website,
         data.email, data.address, data.rating, data.reviewsCount, data.mapsUrl, data.category,
         data.searchQuery, s.aiScore, s.priority.Label(), s.conversionProbability,
         s.revenuePotential, s.recommendedAction, s.dataQualityScore, "new")
  }

  predicate MapsUrlStored(rows: seq<Lead>, mapsUrl: string) {
    exists i :: 0 <= i < |rows| && rows[i].mapsUrl == mapsUrl
  }

  predicate FingerprintStored(rows: seq<Lead>, fingerprint: string) {
    exists i :: 0 <= i < |rows| && rows[i].fingerprint == fingerprint
  }

  /** The table's two unique columns. */
  predicate UniqueKeys(rows: seq<Lead>) {
    forall i, j :: 0 <= i < j < |rows| ==>
      rows[i].mapsUrl != rows[j].mapsUrl && rows[i].fingerprint != rows[j].fingerprint
  }

  datatype CreateError =
    | LeadAlreadyExists   // the 400 response
    | IntegrityError      // the unique fingerprint index refuses the insert

  /** The lead table, with its unique `maps_url` and `unique_fingerprint` columns. */
  class LeadTable {
    var rows: seq<Lead>

    ghost predicate Valid()
      reads this
    {
      UniqueKeys(rows)
    }

    constructor ()
      ensures Valid() && rows == []
    {
      rows := [];
    }

    /** The query for an existing lead with this maps URL. */
    method FindByMapsUrl(mapsUrl: string) returns (found: bool)
      ensures found <==> MapsUrlStored(rows, mapsUrl)
    {
      found := false;
      var i := 0;
      while i < |rows|
        invariant 0 <= i <= |rows|
        invariant found <==> exists k :: 0 <= k < i && rows[k].mapsUrl == mapsUrl
      {
        if rows[i].mapsUrl == mapsUrl {
          found := true;
        }
        i := i + 1;
      }
    }

    /** The unique index lookup the database makes on insert. */
    method FindByFingerprint(fingerprint: string) returns (found: bool)
      ensures found <==> FingerprintStored(rows, fingerprint)
    {
      found := false;
      var i := 0;
      while i < |rows|
        invariant 0 <= i <= |rows|
        invariant found <==> exists k :: 0 <= k < i && rows[k].fingerprint == fingerprint
      {
        if rows[i].fingerprint == fingerprint {
          found := true;
        }
        i := i + 1;
      }
    }

    /**
     * `create_lead` as written: refuses a stored maps URL, otherwise scores the
     * lead and inserts it; the insert itself fails when the fingerprint is taken.
     */
    method CreateLead(data: LeadCreate) returns (r: Result<Lead, CreateError>)
      requires Valid()
      modifies this
      ensures Valid()
      ensures r == Failure(LeadAlreadyExists) <==> MapsUrlStored(old(rows), data.mapsUrl)
      ensures r == Failure(IntegrityError) <==>
        !MapsUrlStored(old(rows), data.mapsUrl)
        && FingerprintStored(old(rows), Fingerprint(data.businessName, data.mapsUrl))
      ensures r.Success? ==> r.value == NewLead(data) && rows == old(rows) + [r.value]
      ensures r.Failure? ==> rows == old(rows)
    {
      var existing := FindByMapsUrl(data.mapsUrl);
      if existing {
        return Failure(LeadAlreadyExists);
      }
      var scores := CalculateAiScore(data);
      var lead := Lead(Fingerprint(data.businessName, data.mapsUrl), data.businessName, data.phone,
                       data.website, data.email, data.address, data.rating, data.reviewsCount,
                       data.mapsUrl, data.category, data.searchQuery, scores.aiScore,
                       scores.priority.Label(), scores.conversionProbability,
                       scores.revenuePotential, scores.recommendedAction,
                       scores.dataQualityScore, "new");
      var clash := FindByFingerprint(lead.fingerprint);
      if clash {
        return Failure(IntegrityError);
      }
      rows := rows + [lead];
      r := Success(lead);
    }

    /**
     * `create_lead` with the duplicate check covering both unique columns:
     * it refuses with "Lead already exists" or adds exactly one lead, and the
     * insert can no longer fail.
     */
    method CreateLeadChecked(data: LeadCreate) returns (r: Result<Lead, CreateError>)
      requires Valid()
      modifies this
      ensures Valid()
      ensures r != Failure(IntegrityError)
      ensures r.Failure? <==>
        MapsUrlStored(old(rows), data.mapsUrl)
        || FingerprintStored(old(rows), Fingerprint(data.businessName, data.mapsUrl))
      ensures r.Success? ==> r.value == NewLead(data) && rows == old(rows) + [r.value]
      ensures r.Failure? ==> rows == old(rows)
    {
      var existing := FindByMapsUrl(data.mapsUrl);
      var fingerprint := Fingerprint(data.businessName, data.mapsUrl);
      var taken := FindByFingerprint(fingerprint);
      if existing || taken {
        return Failure(LeadAlreadyExists);
      }
      var scores := CalculateAiScore(data);
      var lead := Lead(fingerprint, data.businessName, data.phone,
                       data.website, data.email, data.address, data.rating, data.reviewsCount,
                       data.mapsUrl, data.category, data.searchQuery, scores.aiScore,
                       scores.priority.Label(), scores.conversionProbability,
                       scores.revenuePotential, scores.recommendedAction,
                       scores.dataQualityScore, "new");
      rows := rows + [lead];
      r := Success(lead);
    }
  }

  /**
   * The duplicate check of `create_lead` looks at the maps URL only, so a
   * request with a new maps URL can still be refused by the fingerprint index.
   */
  lemma NewMapsUrlCanStillClash()
    ensures var stored := NewLead(LeadCreate("a", None, None, None, None, None, None, "b_c", None, "q"));
      var request := LeadCreate("a_b", None, None, None, None, None, None, "c", None, "q");
      && !MapsUrlStored([stored], request.mapsUrl)
      && FingerprintStored([stored], Fingerprint(request.businessName, request.mapsUrl))
  {
    FingerprintCollision();
    var stored := NewLead(LeadCreate("a", None, None, None, None, None, None, "b_c", None, "q"));
    assert [stored][0].fingerprint == Fingerprint("a", "b_c");
  }

  // ================================================================ listing leads

  datatype LeadQuery = LeadQuery(
    skip: nat,
    limit: nat,
    priority: Option<string>,
    status: Option<string>,
    search: Option<string>)

  /** SQL `LIKE`: `%` matches any run of characters, `_` any one character. */
  predicate LikeMatch(text: string, pattern: string)
    decreases |text| + |pattern|
  {
    if pattern == [] then text == []
    else if pattern[0] == '%' then
      LikeMatch(text, pattern[1..]) || (text != [] && LikeMatch(text[1..], pattern))
    else
      text != [] && (pattern[0] == '_' || pattern[0] == text[0]) && LikeMatch(text[1..], pattern[1..])
  }

  /** `business_name ILIKE '%search%'`, with the search text passed through unescaped. */
  predicate NameMatches(businessName: string, search: string) {
    LikeMatch(Lower(businessName), Lower("%" + search + "%"))
  }

  predicate NoWildcards(s: string) {
    '%' !in s && '_' !in s
  }

  lemma {:induction false} TrailingPercentMatchesAll(t: string)
    ensures LikeMatch(t, "%")
    decreases |t|
  {
    assert "%"[1..] == [];
    if t != [] {
      TrailingPercentMatchesAll(t[1..]);
    }
  }

  lemma {:induction false} LikePrefix(t: string, p: string)
    requires NoWildcards(p)
    ensures LikeMatch(t, p + "%") <==> StartsWith(t, p)
    decreases |p|
  {
    if p == [] {
      assert p + "%" == "%";
      TrailingPercentMatchesAll(t);
    } else {
      var pat := p + "%";
      assert pat[0] == p[0] && pat[1..] == p[1..] + "%";
      assert p[0] in p;
      LikePrefix(if t == [] then t else t[1..], p[1..]);
      if t != [] {
        assert StartsWith(t, p) <==> t[0] == p[0] && StartsWith(t[1..], p[1..]) by {
          if StartsWith(t[1..], p[1..]) && t[0] == p[0] {
            assert t[..|p|] == [t[0]] + t[1..][..|p| - 1];
          }
          if StartsWith(t, p) {
            assert t[1..][..|p| - 1] == t[..|p|][1..];
          }
        }
      }
    }
  }

  /** Without wildcards in the search text, the filter is a case-insensitive substring test. */
  lemma {:induction false} LikeInfix(t: string, p: string)
    requires NoWildcards(p)
    ensures LikeMatch(t, "%" + p + "%") <==> IsInfix(p, t)
    decreases |t|
  {
    var pat := "%" + p + "%";
    assert pat[0] == '%' && pat[1..] == p + "%";
    LikePrefix(t, p);
    if t != [] {
      LikeInfix(t[1..], p);
    }
  }

  lemma NameMatchesIsSubstring(businessName: string, search: string)
    requires NoWildcards(search)
    ensures NameMatches(businessName, search) <==> IsInfix(Lower(search), Lower(businessName))
  {
    LowerAppend("%" + search, "%");
    LowerAppend("%", search);
    assert Lower("%") == "%";
    assert "%" + search + "%" == ("%" + search) + "%";
    var ls := Lower(search);
    assert NoWildcards(ls) by {
      forall k | 0 <= k < |ls| ensures ls[k] != '%' && ls[k] != '_' {
        assert search[k] in search;
      }
    }
    LikeInfix(Lower(businessName), ls);
  }

  predicate MatchesQuery(lead: Lead, q: LeadQuery) {
    && (TruthyText(q.priority) ==> lead.priority == q.priority.value)
    && (TruthyText(q.status) ==> lead.status == q.status.value)
    && (TruthyText(q.search) ==> NameMatches(lead.businessName, q.search.value))
  }

  /** The leads that pass every given filter, in table order. */
  function FilterLeads(rows: seq<Lead>, q: LeadQuery): (r: seq<Lead>)
    ensures forall x :: x in r ==> x in rows && MatchesQuery(x, q)
    ensures forall x :: x in rows && MatchesQuery(x, q) ==> x in r
    ensures |r| <= |rows|
    decreases |rows|
  {
    if rows == [] then []
    else (if MatchesQuery(rows[0], q) then [rows[0]] else []) + FilterLeads(rows[1..], q)
  }

  predicate SortedByScore(s: seq<Lead>) {
    forall i, j :: 0 <= i < j < |s| ==> s[i].aiScore >= s[j].aiScore
  }

  /** Places x before the first lead with a lower score. */
  function InsertByScore(x: Lead, s: seq<Lead>): (r: seq<Lead>)
    ensures multiset(r) == multiset(s) + multiset{x}
    ensures |r| == |s| + 1
    decreases |s|
  {
    if s == [] then [x]
    else if x.aiScore >= s[0].aiScore then [x] + s
    else
      assert s == [s[0]] + s[1..];
      [s[0]] + InsertByScore(x, s[1..])
  }

  /** A score bound that holds for x and for every element of s holds for the insertion. */
  lemma InsertByScoreBounded(x: Lead, s: seq<Lead>, bound: int)
    requires x.aiScore <= bound
    requires forall k :: 0 <= k < |s| ==> s[k].aiScore <= bound
    ensures forall k :: 0 <= k < |InsertByScore(x, s)| ==> InsertByScore(x, s)[k].aiScore <= bound
  {
    var r := InsertByScore(x, s);
    forall k | 0 <= k < |r| ensures r[k].aiScore <= bound {
      assert r[k] in multiset(r);
      if r[k] != x {
        assert r[k] in multiset(s);
        var j :| 0 <= j < |s| && s[j] == r[k];
      }
    }
  }

  /** Inserting into a list ordered by descending score keeps it ordered. */
  lemma {:induction false} InsertByScoreSorted(x: Lead, s: seq<Lead>)
    requires SortedByScore(s)
    ensures SortedByScore(InsertByScore(x, s))
    decreases |s|
  {
    if s != [] && x.aiScore < s[0].aiScore {
      var rest := InsertByScore(x, s[1..]);
      InsertByScoreSorted(x, s[1..]);
      InsertByScoreBounded(x, s[1..], s[0].aiScore);
      ConsSorted(s[0], rest);
    }
  }

  /** A lead scoring at least as high as every lead of a sorted list can go in front of it. */
  lemma ConsSorted(h: Lead, rest: seq<Lead>)
    requires SortedByScore(rest)
    requires forall k :: 0 <= k < |rest| ==> rest[k].aiScore <= h.aiScore
    ensures SortedByScore([h] + rest)
  {
    var r := [h] + rest;
    forall i, j | 0 <= i < j < |r| ensures r[i].aiScore >= r[j].aiScore {
      assert r[j] == rest[j - 1];
      if i > 0 {
        assert r[i] == rest[i - 1];
      }
    }
  }

  /** `ORDER BY ai_score DESC`, keeping the table order among equal scores. */
  function SortByScore(s: seq<Lead>): (r: seq<Lead>)
    ensures multiset(r) == multiset(s)
    ensures |r| == |s|
    decreases |s|
  {
    if s == [] then []
    else
      assert s == [s[0]] + s[1..];
      InsertByScore(s[0], SortByScore(s[1..]))
  }

  lemma {:induction false} SortByScoreSorted(s: seq<Lead>)
    ensures SortedByScore(SortByScore(s))
    decreases |s|
  {
    if s != [] {
      SortByScoreSorted(s[1..]);
      InsertByScoreSorted(s[0], SortByScore(s[1..]));
    }
  }

  /** `OFFSET skip LIMIT limit`. */
  function Page(s: seq<Lead>, skip: nat, limit: nat): (r: seq<Lead>)
    ensures |r| <= limit
    ensures |r| == (if skip >= |s| then 0 else if |s| - skip < limit then |s| - skip else limit)
    ensures forall i :: 0 <= i < |r| ==> r[i] == s[skip + i]
  {
    var lo := if skip < |s| then skip else |s|;
    var hi := if skip + limit < |s| then skip + limit else |s|;
    s[lo..hi]
  }

  /** `get_leads`: filter, order by score descending, then skip and limit. */
  function ListLeads(rows: seq<Lead>, q: LeadQuery): seq<Lead> {
    Page(SortByScore(FilterLeads(rows, q)), q.skip, q.limit)
  }

  /**
   * Every listed lead is stored and passes the filters, the list runs from
   * the highest score down, it holds at most `limit` leads, namely the
   * matches left after the first `skip`, and a first page that is large enough
   * holds every match.
   */
  lemma ListLeadsCorrect(rows: seq<Lead>, q: LeadQuery)
    ensures var r := ListLeads(rows, q);
      && (forall i :: 0 <= i < |r| ==> r[i] in rows && MatchesQuery(r[i], q))
      && SortedByScore(r)
      && |r| <= q.limit
      && |r| == (var n := |FilterLeads(rows, q)|; if q.skip >= n then 0 else if n - q.skip < q.limit then n - q.skip else q.limit)
      && (q.skip == 0 && |FilterLeads(rows, q)| <= q.limit ==> multiset(r) == multiset(FilterLeads(rows, q)))
  {
    var matches := FilterLeads(rows, q);
    var sorted := SortByScore(matches);
    SortByScoreSorted(matches);
    PageSorted(sorted, q.skip, q.limit);
    PageMembers(sorted, q.skip, q.limit);
    forall x | x in multiset(sorted) ensures x in rows && MatchesQuery(x, q) {
      assert x in multiset(matches);
    }
    if q.skip == 0 && |matches| <= q.limit {
      assert Page(sorted, q.skip, q.limit) == sorted;
    }
  }

  lemma PageSorted(s: seq<Lead>, skip: nat, limit: nat)
    requires SortedByScore(s)
    ensures SortedByScore(Page(s, skip, limit))
  {
    var r := Page(s, skip, limit);
    forall i, j | 0 <= i < j < |r| ensures r[i].aiScore >= r[j].aiScore {
      assert r[i] == s[skip + i] && r[j] == s[skip + j];
    }
  }

  lemma PageMembers(s: seq<Lead>, skip: nat, limit: nat)
    ensures forall i :: 0 <= i < |Page(s, skip, limit)| ==> Page(s, skip, limit)[i] in multiset(s)
  {
    var r := Page(s, skip, limit);
    forall i | 0 <= i < |r| ensures r[i] in multiset(s) {
      assert r[i] == s[skip + i];
    }
  }
}
