# Lead intelligence backend — a verified model

The lead intelligence platform scrapes businesses from Google Maps (either
through a Selenium-driven browser or through the Outscraper API), scores
each lead, and stores and lists the leads behind a FastAPI backend. This
project models that backend's statable logic in Dafny and proves what it
promises:

- `AiScorer` (`ai_scorer.dfy`) models `LeadScorer`. It covers:
  - the seven-part AI score and the A/B/C tiers;
  - the conversion probability;
  - the nine-field data quality ratio;
  - the revenue band and the recommended action;
  - the phone and website validators;
  - `score_lead`, which ties them together.

  A lead is a datatype of `Option` fields. Python truthiness is explicit: a string counts when it is `Some` and non-empty, a number when it is `Some` and non-zero.
- `Backend` (`backend.dfy`) models the rules in `main.py`:
  - the `DATABASE_URL` cleanup, written as a method that reassigns the value stage by stage and is proved equal to a stage-composition function, followed by the startup scheme check;
  - the second lead scorer, `calculate_ai_score`, with its 30/25/20/25 parts and its fixed tier strings;
  - the quality buckets;
  - `get_leads` as filter, case-insensitive `ILIKE` search, ordering by score descending, then offset and limit;
  - `create_lead` over an in-memory lead table class, whose `maps_url` and `unique_fingerprint` columns are both unique.
- `Outscraper` (`outscraper.dfy`) models `_standardize_result` with its first-truthy fallbacks, the search string, and the loop over the first result list.
- `MapsScraper` (`scraper.dfy`) models `GoogleMapsScraper` with the browser abstracted away. The driver appears only as the scroll heights it reports, the listings it finds, and the text of each detail panel. It covers:
  - the driver start, which as written always fails because `service` is unbound;
  - the search URL;
  - the bounded scroll loop;
  - the listing cap, keeping listing order and skipping failed listings;
  - the review-count parsing;
  - the removal of the `Address: ` and `Phone: ` labels.
- `Wrappers`, `Values` and `Text` hold the shared pieces:
  - `Option` and `Result`;
  - truthiness and Python's `a or b`;
  - `strip`, `startswith`, `lower`, `replace`, `in` and the digit filter, on ASCII.

A few modelling choices:

- Ratings and the conversion probability are exact `real`s.
- Python's `//` by 10 on the scroll budget is Dafny's `/`: the divisor is positive, so floor division and Euclidean division agree.
- The `int((filled / 9) * 100)` of the data quality score is the exact floor `filled * 100 / 9`. The two agree for every filled count from 0 to 9.

## Model

| member | source | states |
|---|---|---|
| AiScorer.IsValidPhone | backend/ai_scorer.py:247-254 | valid iff the string carries between 10 and 15 decimal digits; the empty string is invalid |
| AiScorer.PhoneFormattingIrrelevant | backend/ai_scorer.py:253-254 | inserting any non-digit character anywhere never changes phone validity |
| AiScorer.DigitRunIsValidPhone | backend/ai_scorer.py:247-254 | a bare run of 10 to 15 digits is a valid phone |
| AiScorer.SeparatedDigits | backend/ai_scorer.py:253 | separators before a group of digits are dropped and the group is kept unchanged |
| AiScorer.GroupedDigits | backend/ai_scorer.py:253 | digit groups between separators keep all their digits, in order |
| AiScorer.FormattedPhoneIsValid | backend/ai_scorer.py:247-254 | a number written `(AAA) BBB-CCCC` keeps its ten digits in order and is valid |
| AiScorer.SamplePhoneIsValid | backend/ai_scorer.py:247-254 | `(555) 123-4567` is a valid phone |
| AiScorer.IsValidWebsite | backend/ai_scorer.py:257-262 | valid iff it starts with `http://` or `https://` and contains a dot; a valid website has at least 8 characters |
| AiScorer.SchemeAndDottedHostIsValidWebsite | backend/ai_scorer.py:262 | any host containing a dot is valid behind either scheme |
| AiScorer.NamePoints | backend/ai_scorer.py:30-31 | the name part is between 0 and 10 |
| AiScorer.PhonePoints | backend/ai_scorer.py:34-39 | the phone part is between 0 and 20 |
| AiScorer.WebsitePoints | backend/ai_scorer.py:42-47 | the website part is between 0 and 20 |
| AiScorer.AddressPoints | backend/ai_scorer.py:50-55 | the address part is between 0 and 15 |
| AiScorer.RatingPoints | backend/ai_scorer.py:58-69 | the rating part is between 0 and 15 |
| AiScorer.ReviewPoints | backend/ai_scorer.py:74-85 | the review part is between 0 and 15 |
| AiScorer.CategoryPoints | backend/ai_scorer.py:90-91 | the category part is between 0 and 5 |
| AiScorer.AiScoreRange | backend/ai_scorer.py:29-94 | the sum is always in 0..100, so the clamp never changes it; it is 100 exactly when every part is at its maximum |
| AiScorer.PhonePointsAdded | backend/ai_scorer.py:34-39 | adding a phone to a lead raises the score by 20 when it looks valid, by 10 otherwise, by 0 when it is empty |
| AiScorer.WebsitePointsAdded | backend/ai_scorer.py:42-47 | adding a website raises the score by 20 when it looks valid, by 10 otherwise, by 0 when it is empty |
| AiScorer.AddressPointsAdded | backend/ai_scorer.py:50-55 | adding an address raises the score by 15 when longer than 20 characters, by 8 otherwise, by 0 when empty |
| AiScorer.AiScoreMonotone | backend/ai_scorer.py:17-94 | filling in missing fields never lowers the AI score |
| AiScorer.CalculateAiScore | backend/ai_scorer.py:17-94 | the field-by-field accumulation followed by the clamp equals the seven-part sum and lies in 0..100 |
| AiScorer.AssignPriority | backend/ai_scorer.py:97-112 | A iff the score is at least 80, B iff 60..79, C iff below 60 |
| AiScorer.PriorityMonotone | backend/ai_scorer.py:107-112 | a higher score never gets a colder tier |
| AiScorer.ConversionBounds | backend/ai_scorer.py:127-163 | the bonus is between 0 and 40; the probability is at most 100, not negative for a non-negative score, and at least 60% of the score unless capped |
| AiScorer.ConversionMonotone | backend/ai_scorer.py:127-163 | a higher AI score never lowers the conversion probability |
| AiScorer.CalculateConversionProbability | backend/ai_scorer.py:115-163 | the accumulated bonus plus 60% of the score, capped, equals min(0.6·score + bonus, 100) and lies in 0..100 |
| AiScorer.FilledFlags | backend/ai_scorer.py:176-186 | exactly the nine checked fields are tested |
| AiScorer.CountTrue | backend/ai_scorer.py:188 | the count of filled fields is at most their number; it equals the number iff every field is filled and is 0 iff none is |
| AiScorer.CountTrueMonotone | backend/ai_scorer.py:188 | filling more fields never lowers the count |
| AiScorer.DataQualityScore | backend/ai_scorer.py:166-191 | the percentage is in 0..100; it is 0 iff no field is filled and 100 iff all nine are |
| AiScorer.DataQualityMonotone | backend/ai_scorer.py:166-191 | filling in a missing field never lowers the data quality score |
| AiScorer.RevenuePotential | backend/ai_scorer.py:194-217 | High iff score ≥ 80 and at least 50 reviews are given; Low iff score < 60; Medium otherwise |
| AiScorer.RevenueMonotone | backend/ai_scorer.py:206-217 | for a fixed lead a higher score never gets a lower revenue band |
| AiScorer.RecommendedAction | backend/ai_scorer.py:220-244 | C always gets the drip campaign; A with a phone gets "call immediately", A without one gets the email or research action; B gets the follow-up exactly when a phone or an email exists, the nurture campaign otherwise |
| AiScorer.ScoreLead | backend/ai_scorer.py:265-294 | every metric equals its defining function; the priority is the tier of the AI score; C iff the Low band; C gets the drip action; A with a phone gets "call immediately"; the High band implies tier A |
| Backend.NormaliseDatabaseUrl | backend/main.py:22-53 | the stage-by-stage reassignment equals the cleanup function, and its result is non-empty, has no surrounding whitespace and never starts with `postgres://` |
| Backend.DoubleBraceIsReference | backend/main.py:32 | the `${{` test is subsumed by the `${` test |
| Backend.UnquoteShape | backend/main.py:43 | the unquoted value is empty or has no whitespace at either end |
| Backend.ReschemeShape | backend/main.py:46-47 | the scheme rewrite keeps emptiness and clean ends and never leaves `postgres://` in front |
| Backend.DefaultShape | backend/main.py:50-51 | the SQLite default is non-empty, trimmed and not a `postgres://` URL |
| Backend.CleanedUrlShape | backend/main.py:22-53 | the cleaned URL is always well formed: non-empty, trimmed, never `postgres://` |
| Backend.CleanUrlStagesKeep | backend/main.py:32-47 | every stage after the first leaves an already clean value unchanged |
| Backend.NoEqualsPrefix | backend/main.py:40-41 | a clean value has no `=` to drop |
| Backend.UnquoteClean | backend/main.py:43 | unquoting leaves a clean value unchanged |
| Backend.CleanUrlKept | backend/main.py:22-53 | a clean URL wrapped in surrounding whitespace comes out of the cleanup unchanged |
| Backend.EqualsPrefixKept | backend/main.py:22-35 | an `=`-prefixed clean value passes the strip and the reference test unchanged |
| Backend.EqualsPrefixDropped | backend/main.py:40-41 | one leading `=` is dropped |
| Backend.LeadingEqualsDropped | backend/main.py:38-53 | an `=`-prefixed clean URL cleans to the URL itself |
| Backend.QuotesDropped | backend/main.py:22-53 | a clean URL in double or in single quotes cleans to the URL itself |
| Backend.QuotedStages | backend/main.py:22-53 | the same, for either quote character |
| Backend.QuotedPrefixStages | backend/main.py:22-41 | a quoted clean URL passes the strip, the reference test and the `=` test unchanged |
| Backend.UnquoteQuoted | backend/main.py:43 | unquoting removes one pair of either quote from a clean value |
| Backend.UnquoteDoubleQuoted | backend/main.py:43 | unquoting removes surrounding double quotes from a plain-ended value |
| Backend.UnquoteSingleQuoted | backend/main.py:43 | double-quote stripping leaves a single-quoted value alone, and single-quote stripping then unwraps it |
| Backend.UnresolvedReferenceFallsBack | backend/main.py:32-35 | every `${`-prefixed value falls back to the SQLite default |
| Backend.PostgresSchemeRewritten | backend/main.py:46-47 | a `postgres://` URL with a plain end is rewritten to `postgresql://` followed by the same rest |
| Backend.PostgresPrefixRewritten | backend/main.py:46-47 | the same, stated on the rest after the scheme |
| Backend.CheckDatabaseUrl | backend/main.py:67-76 | accepted iff the URL is not blank and starts with one of the five listed schemes; an accepted URL is returned unchanged; the scheme error quotes at most the first 50 characters |
| Backend.CheckWellFormedUrl | backend/main.py:67-76 | on a well-formed URL the emptiness error never fires, and the URL is accepted iff it starts with one of the four schemes other than `postgres://` |
| Backend.ConfigureDatabaseUrlOutcome | backend/main.py:22-76 | the configuration never fails as empty; it succeeds iff the cleaned URL starts with `sqlite://`, `postgresql://`, `mysql://` or `mysql+pymysql://` |
| Backend.BlankUrlCleansToDefault | backend/main.py:22-51 | an unset or blank value cleans to the SQLite default |
| Backend.BlankUrlUsesSqlite | backend/main.py:22-76 | an unset or blank value configures the SQLite default successfully |
| Backend.MaturityPoints | backend/main.py:345-352 | business maturity is between 0 and 30 |
| Backend.PresencePoints | backend/main.py:354-358 | digital presence is between 0 and 25 |
| Backend.RatingQualityPoints | backend/main.py:360-367 | rating quality is between 0 and 20 |
| Backend.ContactPoints | backend/main.py:369-377 | contact completeness is between 0 and 25 |
| Backend.ApiAiScoreRange | backend/main.py:345-377 | the score is in 0..100 with no clamp; it is 100 iff there are more than 100 reviews, a rating of at least 4.5, and a phone, an email and a website |
| Backend.ApiQualityScore | backend/main.py:393-408 | the quality score is in 0..100 and is 100 iff all seven checked fields are present |
| Backend.SumScorePoints | backend/main.py:343-377 | the step-by-step accumulation of `score` and `contact_score` equals the four-part sum and lies in 0..100 |
| Backend.SumQualityPoints | backend/main.py:393-408 | the step-by-step accumulation equals the seven-field quality score and lies in 0..100 |
| Backend.CalculateAiScore | backend/main.py:341-417 | the result equals the scores every stored lead carries; A iff score ≥ 80, B iff 60..79, C iff below 60; conversion probability equals the AI score; each tier carries its fixed action and revenue strings; quality is in 0..100 |
| Backend.QualityBucket | backend/main.py:770-776 | High iff ≥ 80, Medium iff 60..79, Low iff 40..59, Very Low iff below 40 |
| Backend.QualityBucketOfCreatedLeads | backend/main.py:393-408 | a lead with all seven fields lands in the High bucket; one without phone, email and website lands in Very Low |
| Backend.Fingerprint | backend/main.py:684 | the fingerprint is as long as the name plus one plus the maps URL, has `_` right after the name, ends with the maps URL, and has no space in the name part |
| Backend.FingerprintIgnoresCaseAndSpaces | backend/main.py:684 | names differing only in letter case, or in space versus underscore, share a fingerprint |
| Backend.FingerprintCollision | backend/main.py:684 | two different (name, maps URL) pairs can share a fingerprint |
| Backend.LeadTable.FindByMapsUrl | backend/main.py:674 | found iff some stored lead has that maps URL |
| Backend.LeadTable.FindByFingerprint | backend/main.py:164 | found iff some stored lead has that fingerprint |
| Backend.LeadTable.CreateLead | backend/main.py:667-691 | a stored maps URL gives the 400 error and nothing changes; otherwise a stored fingerprint makes the unique index refuse the insert; otherwise exactly the new lead, with its scores and fingerprint, is appended; both columns stay unique |
| Backend.LeadTable.CreateLeadChecked | backend/main.py:674-684 | with both unique keys checked first, the insert never violates the index: it fails iff the maps URL or the fingerprint is stored, and otherwise appends exactly the new lead |
| Backend.NewMapsUrlCanStillClash | backend/main.py:674-684 | a table with one lead refuses a request with a new maps URL because its fingerprint is taken |
| Backend.TrailingPercentMatchesAll | backend/main.py:660 | the pattern `%` matches every text |
| Backend.LikePrefix | backend/main.py:660 | with no wildcards in p, `p%` matches iff the text starts with p |
| Backend.LikeInfix | backend/main.py:660 | with no wildcards in p, `%p%` matches iff p occurs in the text |
| Backend.NameMatchesIsSubstring | backend/main.py:659-660 | a search text without wildcards matches iff it occurs in the business name, ignoring case |
| Backend.FilterLeads | backend/main.py:655-660 | exactly the stored leads that pass every given filter are kept |
| Backend.InsertByScore | backend/main.py:662 | insertion adds exactly the one lead to the multiset |
| Backend.InsertByScoreSorted | backend/main.py:662 | insertion keeps the order by score descending |
| Backend.SortByScore | backend/main.py:662 | ordering is a permutation |
| Backend.SortByScoreSorted | backend/main.py:662 | the ordered leads run from the highest score down |
| Backend.Page | backend/main.py:663 | offset then limit: at most `limit` leads, namely the ones from position `skip` on, in order |
| Backend.PageSorted | backend/main.py:663 | a page of an ordered list is ordered |
| Backend.ListLeadsCorrect | backend/main.py:653-663 | every listed lead is stored and matches priority, status and search; the list is ordered by score descending; it holds at most `limit` leads, exactly the matches left after the first `skip`; a large enough first page holds every match |
| Outscraper.SearchString | backend/outscraper_service.py:52 | without a location the query is used as it is |
| Outscraper.SearchStringJoins | backend/outscraper_service.py:52 | a query and a location without surrounding whitespace are joined by one space |
| Outscraper.SearchStringLocationOnly | backend/outscraper_service.py:52 | an empty query with a location gives the stripped location |
| Outscraper.FirstTruthy | backend/outscraper_service.py:100 | `a or b or c` is one of its operands, and truthy exactly when one of them is |
| Outscraper.PlaceMapsUrl | backend/outscraper_service.py:101 | a truthy google_id gives the place-id URL; otherwise the `url` field |
| Outscraper.StandardizeResult | backend/outscraper_service.py:81-115 | name, phone, rating, coordinates, status, price level and hours are copied; website, address and reviews take the first truthy of their two keys; each mapped field is truthy iff one of its sources is |
| Outscraper.CategoryIsFirstTruthy | backend/outscraper_service.py:100 | the category is the first truthy of `type`, `category`, `categories` |
| Outscraper.ZeroReviewsFallThrough | backend/outscraper_service.py:99 | zero reviews are falsy and fall through to `reviews_count` |
| Outscraper.MapsUrlFromPlaceId | backend/outscraper_service.py:101 | a maps URL is present iff google_id or url is truthy, and a place-id URL gives back the google_id it was built from |
| Outscraper.StandardizeAll | backend/outscraper_service.py:69-72 | one standard record per place, in order |
| Outscraper.ScrapeGoogleMaps | backend/outscraper_service.py:52-75 | the search string sent, and one standard record per place of the first result list, in order; none when no list came back |
| MapsScraper.SearchUrl | backend/scraper.py:82-86 | the URL is the search prefix followed by the search string, of the same length, with no space left |
| MapsScraper.SearchUrlSpellsSearchString | backend/scraper.py:86 | each character of the search string appears in the URL, a space written as `+` |
| MapsScraper.SearchUrlOfWords | backend/scraper.py:82-86 | for one-word query and location the URL is the prefix, the query, `+` and the location |
| MapsScraper.ScrollResultsPanel | backend/scraper.py:107-144 | no attempt without the panel; at most `max_results // 10 + 5` attempts; every counted attempt changed the height; the last height is the last counted one; the loop stops at the first unchanged height, when the budget is spent, or when the driver stops answering |
| MapsScraper.Decimal | backend/scraper.py:223 | a number's decimal rendering is a non-empty run of digits |
| MapsScraper.DecimalRoundTrip | backend/scraper.py:223 | `int` of a number's decimal rendering gives the number back |
| MapsScraper.DigitPrefix | backend/scraper.py:223 | the longest leading digit run |
| MapsScraper.FirstDigitRun | backend/scraper.py:223 | `re.findall(r'(\d+)', …)[0]`: none iff the text has no digit; otherwise a non-empty digit run occurring in the text |
| MapsScraper.ReviewCountRoundTrip | backend/scraper.py:217-226 | a label whose only digits are a rendered count parses back to that count |
| MapsScraper.CommaIgnored | backend/scraper.py:223 | commas anywhere in the label never change the count |
| MapsScraper.GroupedReviewCount | backend/scraper.py:223 | `(1,234)` parses to 1234 |
| MapsScraper.NoDigitsNoCount | backend/scraper.py:223-226 | a label without digits yields no count |
| MapsScraper.LabelStripped | backend/scraper.py:244-255 | a label prefix is removed from the value after it |
| MapsScraper.InnerLabelRemoved | backend/scraper.py:244-255 | `replace` removes a label that is not at the front too |
| MapsScraper.DetailsOf | backend/scraper.py:187-282 | no record iff the panel did not load |
| MapsScraper.ExtractBusinessDetails | backend/scraper.py:187-282 | the field-by-field fill equals the panel's record |
| MapsScraper.DetailsOfLabelledPanel | backend/scraper.py:198-276 | a labelled address and phone come back without their labels; name and maps URL are the heading and the current URL |
| MapsScraper.ListingRecord | backend/scraper.py:169-172 | a listing yields at most one record, and one exactly when its panel loaded |
| MapsScraper.Harvest | backend/scraper.py:159-180 | never more records than listings |
| MapsScraper.HarvestAppend | backend/scraper.py:159-180 | records keep listing order: the records of a concatenation are the concatenated records |
| MapsScraper.FailedListingSkipped | backend/scraper.py:178-180 | a failed listing is skipped and the run goes on |
| MapsScraper.HarvestAllLoaded | backend/scraper.py:159-180 | when every listing loads, record k is the record of listing k |
| MapsScraper.Cap | backend/scraper.py:159-161 | the number of listings examined is none for a non-positive `max_results`, else the smaller of `max_results` and the number found |
| MapsScraper.ListingsHarvestCapped | backend/scraper.py:159-161 | at most `max_results` records, none for a non-positive one |
| MapsScraper.ExtractListings | backend/scraper.py:146-185 | the loop over the sliced listings with its `idx >= max_results` break yields the capped harvest |
| MapsScraper.InitDriver | backend/scraper.py:58-64 | the driver starts iff `service` is bound and Chrome reports no failure; every failure message carries the `Failed to initialize Chrome driver: ` prefix, and an unbound `service` gives the NameError message |
| MapsScraper.DriverNeverStartsAsWritten | backend/scraper.py:59-64 | with the line that binds `service` commented out, the driver never starts, whatever Chrome would do |
| MapsScraper.GoogleMapsScraper.SearchWith | backend/scraper.py:66-105 | a driver failure is re-raised with the `Scraping failed: ` prefix and leaves `results` alone; otherwise the URL opened is the search URL, and `results` and the returned list are the capped harvest of the listings |
| MapsScraper.GoogleMapsScraper.SearchAsWritten | backend/scraper.py:58-104 | as written, every search fails with `Scraping failed: Failed to initialize Chrome driver: name 'service' is not defined` and leaves `results` alone |
| MapsScraper.GoogleMapsScraper.Search | backend/scraper.py:66-105 | with `service` bound: when Chrome starts, the URL opened is the search URL and `results` is the capped harvest; when it does not, Chrome's failure is re-raised with both prefixes |
| Values.OrText | backend/outscraper_service.py:96-97 | `a or b`: a when truthy, otherwise b; truthy iff either is |
| Values.OrInt | backend/outscraper_service.py:99 | the same on numbers, where 0 is falsy |
| Text.Strip | backend/main.py:22 | the result has no whitespace at either end |
| Text.DigitsOf | backend/ai_scorer.py:253 | only digits are kept, and the result is no longer than the input |
| Text.DigitsOfAllDigits | backend/ai_scorer.py:253 | a string of digits only is kept whole |
| Text.DigitsOfNoDigits | backend/ai_scorer.py:253 | a string without digits leaves nothing |
| Text.DigitsOfAppend | backend/ai_scorer.py:253 | the digits of a concatenation are the digits of each part, in order; with the two lemmas above this fixes the result for every input |
| Text.StripBlank | backend/main.py:22 | an all-whitespace string strips to nothing |
| Text.RemoveCharOnly | backend/scraper.py:223 | after removal no comma is left and nothing new appears |
| Text.ReplaceAllAbsent | backend/scraper.py:244 | `replace` of an absent pattern leaves the text alone |

## Left out

- The SQLAlchemy engine, sessions, table creation, the connection test and the seed data are database I/O. The lead table is an in-memory sequence of rows.
- `Lead` ids, `created_at` and `updated_at` are left out. So are the columns `assigned_to_user_id`, `campaign_id`, `last_contacted_at` and `notes` (`backend/main.py:184-191`), which `create_lead` leaves null. The stored lead keeps every `LeadCreate` field, the scores, the fingerprint and status `new`.
- The diagnostic `print` calls in the `DATABASE_URL` cleanup (`backend/main.py:27-51`) are console output and are left out. The value they print is not changed by them.
- bcrypt, JWT and the `get_current_user` lookup are left out: they are foreign crypto libraries and authentication, and no endpoint modelled here depends on who the user is.
- FastAPI routing, CORS, the lifespan hooks, the health and seed endpoints, the dashboard aggregates and `run.py` are left out. They are framework plumbing or computed by the database.
- Backend.ListLeads: the API's `skip` and `limit` are modelled as `nat`. What the database does with negative values is not modelled.
- Backend.SortByScore: ties in `ORDER BY ai_score DESC` are left unspecified by the database. The model orders by a stable insertion sort, and the proved properties hold for any tie order.
- Backend.NameMatches: `ILIKE` is modelled as `LIKE` with `%` and `_` over ASCII lower case. Escape characters and database collations are not modelled.
- Backend.LeadTable.CreateLead: the priority is stored as the `A`/`B`/`C` label of the tier datatype rather than as a free string.
- AiScorer.ConversionProbability: `round(total, 1)` is not modelled. The value is exact, and 0.6 times an integer plus an integer is already a multiple of a tenth.
- AiScorer.DataQualityScore: the float computation `int((filled / 9) * 100)` is replaced by the exact floor. The two agree for every count from 0 to 9, by hand calculation.
- Text.Lower: only ASCII letters are lowered.
- Text.IsDigit: `\d` is the ASCII digits only.
- Outscraper.ScrapeGoogleMaps: the `ApiClient` call is a parameter, namely the list of result lists it returned. The API key, the limit, language and region, the logging, and the exception re-raised on failure are not modelled.
- Outscraper.StandardizeResult: the exception path of `_standardize_result` is not modelled. Each raw record is a dictionary, on which `.get` cannot fail.
- Outscraper.RawPlace: `working_hours` and `categories` are modelled as optional strings. The model never inspects their structure.
- MapsScraper.GoogleMapsScraper.SearchAsWritten: as written, `_init_driver` always fails. The line that binds `service` (`backend/scraper.py:59`) is commented out, so line 60 raises NameError, and `search` re-raises it. The program as written never opens a URL and never harvests anything. `Search` and the harvest members model the code as it would run once `service` is bound; see "## Findings".
- MapsScraper: the Selenium driver, the Chrome options, the clicks, waits and sleeps, the `finally: self.close()`, and the logging are not modelled. Failures after the driver has started are not modelled either. The browser is seen only through the failure Chrome reports on start, the heights, the listings and the detail-panel texts.
- MapsScraper.ScrollResultsPanel: the scroll does not feed back into which listings are found. The listings are given separately.
- MapsScraper.DetailsOf: the rating regex with its float conversion (`backend/scraper.py:211`) is not modelled. The rating comes in already parsed, as `Option<real>`.
- MapsScraper.DetailsOf: a reviews label without digits makes the source's `[0]` raise inside its `try`, which then stores `None`. The model returns `None` for that case directly.
- MapsScraper.InnerLabelRemoved: the model proves that a label is removed wherever it occurs on its own. It does not prove that a single `replace` pass can leave a label behind when the pieces around a removed label join into a new one.

## Findings

| source | as written | input that shows it | evidently intended | confidence | as-written member | corrected member |
|---|---|---|---|---|---|---|
| backend/main.py:674-684 | `create_lead` checks only for a stored `maps_url`, but `unique_fingerprint` is a unique column too. The fingerprint `name.lower().replace(' ', '_') + '_' + maps_url` is ambiguous, because `_` may occur in either part. | A table holding a lead for name `a` at maps URL `b_c`, then a request for name `a_b` at URL `c`. Both fingerprints are `a_b_c`, so the insert breaks the unique index (a 500 error) instead of succeeding or giving the 400 "Lead already exists". | Both unique keys are checked before the insert, so a clash gives the controlled error instead of an integrity failure. | not executed | Backend.LeadTable.CreateLead, Backend.NewMapsUrlCanStillClash, Backend.FingerprintCollision | Backend.LeadTable.CreateLeadChecked |
| backend/scraper.py:59-60 | `_init_driver` calls `webdriver.Chrome(service=service, ...)`, but the line that would bind `service` is commented out, and no other binding of `service` exists. The NameError is caught at lines 63-64 and re-raised as `GoogleMapsScraperError`, which `search` re-raises at lines 103-104. | Any call, e.g. `search("restaurants", "New York", 20)`: it fails with `Scraping failed: Failed to initialize Chrome driver: name 'service' is not defined` before the URL is opened. | `service` is bound, for example to a `Service` for a locally installed chromedriver, so that the driver starts and the search runs. | not executed | MapsScraper.GoogleMapsScraper.SearchAsWritten, MapsScraper.DriverNeverStartsAsWritten | MapsScraper.GoogleMapsScraper.Search |
