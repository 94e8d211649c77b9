/**
 * The lead scorer: a point sum over the optional fields of a scraped lead,
 * the A/B/C priority tier, the conversion probability, the completeness
 * ratio, the revenue band and the recommended next action.
 */
module AiScorer {
  import opened Wrappers
  import opened Values
  import opened Text

  /** A lead dictionary as the scraper produces it; every key may be missing. */
  datatype LeadData = LeadData(
    name: Option<string>,
    phone: Option<string>,
    email: Option<string>,
    website: Option<string>,
    address: Option<string>,
    rating: Option<real>,
    reviewsCount: Option<int>,
    category: Option<string>,
    mapsUrl: Option<string>)

  /** Hot, warm and cold leads. */
  datatype Priority = A | B | C {
    function Label(): string {
      match this
      case A => "A"
      case B => "B"
      case C => "C"
    }

    /** Position in the order C < B < A. */
    function Rank(): nat {
      match this
      case A => 2
      case B => 1
      case C => 0
    }
  }

  const HighRevenue: string := "High ($5000+)"
  const MediumRevenue: string := "Medium ($2000-5000)"
  const LowRevenue: string := "Low ($500-2000)"

  const CallNow: string := "Call immediately - High potential lead"
  const EmailSoon: string := "Send personalized email within 24 hours"
  const ResearchContact: string := "Research contact info and reach out ASAP"
  const FollowUp: string := "Follow up within 48 hours"
  const Nurture: string := "Add to nurture campaign"
  const Drip: string := "Add to email drip campaign for future engagement"

  // ---------------------------------------------------------------- validators

  /** A phone number looks valid when it carries 10 to 15 decimal digits, whatever the formatting. */
  predicate IsValidPhone(phone: string): (ok: bool)
    ensures ok <==> 10 <= |DigitsOf(phone)| <= 15
    ensures phone == "" ==> !ok
  {
    phone != "" && 10 <= |DigitsOf(phone)| <= 15
  }

  /** Inserting a formatting character (anything but a digit) never changes phone validity. */
  lemma PhoneFormattingIrrelevant(a: string, c: char, b: string)
    requires !IsDigit(c)
    ensures IsValidPhone(a + [c] + b) == IsValidPhone(a + b)
  {
    DigitsOfAppend(a + [c], b);
    DigitsOfAppend(a, [c]);
    DigitsOfAppend(a, b);
  }

  /** A run of 10 to 15 digits is a valid phone. */
  lemma DigitRunIsValidPhone(d: string)
    requires 10 <= |d| <= 15
    requires forall k :: 0 <= k < |d| ==> IsDigit(d[k])
    ensures IsValidPhone(d)
  {
    DigitsOfAllDigits(d);
  }

  /** Separators before a run of digits contribute nothing; the run is kept as it is. */
  lemma SeparatedDigits(sep: string, d: string, rest: string)
    requires forall k :: 0 <= k < |sep| ==> !IsDigit(sep[k])
    requires forall k :: 0 <= k < |d| ==> IsDigit(d[k])
    ensures DigitsOf(sep + d + rest) == d + DigitsOf(rest)
  {
    DigitsOfNoDigits(sep);
    DigitsOfAllDigits(d);
    calc {
      DigitsOf(sep + d + rest);
      { DigitsOfAppend(sep + d, rest); }
      DigitsOf(sep + d) + DigitsOf(rest);
      { DigitsOfAppend(sep, d); }
      DigitsOf(sep) + DigitsOf(d) + DigitsOf(rest);
      [] + d + DigitsOf(rest);
    }
    assert [] + d == d;
  }

  /** A number written as digit groups between formatting separators keeps its digits, in order. */
  lemma {:induction false} GroupedDigits(s1: string, a: string, s2: string, b: string, s3: string, c: string)
    requires forall k :: 0 <= k < |s1| ==> !IsDigit(s1[k])
    requires forall k :: 0 <= k < |s2| ==> !IsDigit(s2[k])
    requires forall k :: 0 <= k < |s3| ==> !IsDigit(s3[k])
    requires forall k :: 0 <= k < |a| ==> IsDigit(a[k])
    requires forall k :: 0 <= k < |b| ==> IsDigit(b[k])
    requires forall k :: 0 <= k < |c| ==> IsDigit(c[k])
    ensures DigitsOf(s1 + a + s2 + b + s3 + c) == a + b + c
  {
    var third := s3 + c;
    var second := s2 + b + third;
    assert s1 + a + s2 + b + s3 + c == s1 + a + second;
    calc {
      DigitsOf(s1 + a + second);
      { SeparatedDigits(s1, a, second); }
      a + DigitsOf(second);
      { SeparatedDigits(s2, b, third); }
      a + (b + DigitsOf(third));
      { SeparatedDigits(s3, c, []); assert third + [] == third; }
      a + (b + (c + []));
    }
    assert a + (b + (c + [])) == a + b + c;
  }

  /** A North American number written "(AAA) BBB-CCCC" is valid: its ten digits are kept in order. */
  lemma FormattedPhoneIsValid(area: string, exchange: string, line: string)
    requires |area| == 3 && |exchange| == 3 && |line| == 4
    requires forall k :: 0 <= k < |area| ==> IsDigit(area[k])
    requires forall k :: 0 <= k < |exchange| ==> IsDigit(exchange[k])
    requires forall k :: 0 <= k < |line| ==> IsDigit(line[k])
    ensures DigitsOf("(" + area + ") " + exchange + "-" + line) == area + exchange + line
    ensures IsValidPhone("(" + area + ") " + exchange + "-" + line)
  {
    GroupedDigits("(", area, ") ", exchange, "-", line);
  }

  lemma SamplePhoneIsValid()
    ensures IsValidPhone("(555) 123-4567")
  {
    FormattedPhoneIsValid("555", "123", "4567");
    assert "(" + "555" + ") " + "123" + "-" + "4567" == "(555) 123-4567";
  }

  /** A website looks valid when it has an http or https scheme and contains a dot. */
  predicate IsValidWebsite(website: string): (ok: bool)
    ensures ok <==> (StartsWith(website, "http://") || StartsWith(website, "https://")) && '.' in website
    ensures ok ==> |website| >= 8
  {
    website != "" && (StartsWith(website, "http://") || StartsWith(website, "https://")) && '.' in website
  }

  lemma SchemeAndDottedHostIsValidWebsite(host: string)
    requires '.' in host
    ensures IsValidWebsite("https://" + host) && IsValidWebsite("http://" + host)
  {
    assert ("https://" + host)[..8] == "https://";
    assert ("http://" + host)[..7] == "http://";
    var i :| 0 <= i < |host| && host[i] == '.';
    assert ("https://" + host)[8 + i] == '.';
    assert ("http://" + host)[7 + i] == '.';
  }

  // ---------------------------------------------------------------- the AI score

  function NamePoints(lead: LeadData): (p: int)
    ensures 0 <= p <= 10
  {
    if TruthyText(lead.name) then 10 else 0
  }

  function PhonePoints(lead: LeadData): (p: int)
    ensures 0 <= p <= 20
  {
    if !TruthyText(lead.phone) then 0
    else if IsValidPhone(lead.phone.value) then 20 else 10
  }

  function WebsitePoints(lead: LeadData): (p: int)
    ensures 0 <= p <= 20
  {
    if !TruthyText(lead.website) then 0
    else if IsValidWebsite(lead.website.value) then 20 else 10
  }

  function AddressPoints(lead: LeadData): (p: int)
    ensures 0 <= p <= 15
  {
    if !TruthyText(lead.address) then 0
    else if |lead.address.value| > 20 then 15 else 8
  }

  function RatingPoints(lead: LeadData): (p: int)
    ensures 0 <= p <= 15
  {
    if !TruthyReal(lead.rating) then 0
    else if lead.rating.value >= 4.5 then 15
    else if lead.rating.value >= 4.0 then 12
    else if lead.rating.value >= 3.5 then 8
    else 5
  }

  function ReviewPoints(lead: LeadData): (p: int)
    ensures 0 <= p <= 15
  {
    if !TruthyInt(lead.reviewsCount) then 0
    else if lead.reviewsCount.value >= 100 then 15
    else if lead.reviewsCount.value >= 50 then 12
    else if lead.reviewsCount.value >= 20 then 8
    else 5
  }

  function CategoryPoints(lead: LeadData): (p: int)
    ensures 0 <= p <= 5
  {
    if TruthyText(lead.category) then 5 else 0
  }

  /** The AI score as the sum of its seven components. */
  function AiScore(lead: LeadData): int {
    NamePoints(lead) + PhonePoints(lead) + WebsitePoints(lead) + AddressPoints(lead)
    + RatingPoints(lead) + ReviewPoints(lead) + CategoryPoints(lead)
  }

  /**
   * The component maxima 10+20+20+15+15+15+5 sum to 100, so the score is in
   * 0..100 and reaches 100 exactly when every component is at its maximum.
   */
  lemma AiScoreRange(lead: LeadData)
    ensures 0 <= AiScore(lead) <= 100
    ensures AiScore(lead) == 100 <==>
      && TruthyText(lead.name)
      && TruthyText(lead.phone) && IsValidPhone(lead.phone.value)
      && TruthyText(lead.website) && IsValidWebsite(lead.website.value)
      && TruthyText(lead.address) && |lead.address.value| > 20
      && TruthyReal(lead.rating) && lead.rating.value >= 4.5
      && TruthyInt(lead.reviewsCount) && lead.reviewsCount.value >= 100
      && TruthyText(lead.category)
  {
  }

  /** A present phone adds 20 when it looks valid and 10 otherwise. */
  lemma PhonePointsAdded(lead: LeadData, s: string)
    ensures AiScore(lead.(phone := Some(s))) - AiScore(lead.(phone := None))
         == if s == "" then 0 else if IsValidPhone(s) then 20 else 10
  {
    var with, without := lead.(phone := Some(s)), lead.(phone := None);
    assert NamePoints(with) == NamePoints(without) && WebsitePoints(with) == WebsitePoints(without);
    assert AddressPoints(with) == AddressPoints(without) && RatingPoints(with) == RatingPoints(without);
    assert ReviewPoints(with) == ReviewPoints(without) && CategoryPoints(with) == CategoryPoints(without);
  }

  /** A present website adds 20 when it looks valid and 10 otherwise. */
  lemma WebsitePointsAdded(lead: LeadData, s: string)
    ensures AiScore(lead.(website := Some(s))) - AiScore(lead.(website := None))
         == if s == "" then 0 else if IsValidWebsite(s) then 20 else 10
  {
    var with, without := lead.(website := Some(s)), lead.(website := None);
    assert NamePoints(with) == NamePoints(without) && PhonePoints(with) == PhonePoints(without);
    assert AddressPoints(with) == AddressPoints(without) && RatingPoints(with) == RatingPoints(without);
    assert ReviewPoints(with) == ReviewPoints(without) && CategoryPoints(with) == CategoryPoints(without);
  }

  /** A present address adds 15 when longer than 20 characters and 8 otherwise. */
  lemma AddressPointsAdded(lead: LeadData, s: string)
    ensures AiScore(lead.(address := Some(s))) - AiScore(lead.(address := None))
         == if s == "" then 0 else if |s| > 20 then 15 else 8
  {
    var with, without := lead.(address := Some(s)), lead.(address := None);
    assert NamePoints(with) == NamePoints(without) && PhonePoints(with) == PhonePoints(without);
    assert WebsitePoints(with) == WebsitePoints(without) && RatingPoints(with) == RatingPoints(without);
    assert ReviewPoints(with) == ReviewPoints(without) && CategoryPoints(with) == CategoryPoints(without);
  }

  /** b keeps every truthy field of a, unchanged (b may fill in more). */
  predicate AtLeastAsComplete(a: LeadData, b: LeadData) {
    && (TruthyText(a.name) ==> b.name == a.name)
    && (TruthyText(a.phone) ==> b.phone == a.phone)
    && (TruthyText(a.email) ==> b.email == a.email)
    && (TruthyText(a.website) ==> b.website == a.website)
    && (TruthyText(a.address) ==> b.address == a.address)
    && (TruthyReal(a.rating) ==> b.rating == a.rating)
    && (TruthyInt(a.reviewsCount) ==> b.reviewsCount == a.reviewsCount)
    && (TruthyText(a.category) ==> b.category == a.category)
    && (TruthyText(a.mapsUrl) ==> b.mapsUrl == a.mapsUrl)
  }

  /** Filling in a missing field never lowers the AI score. */
  lemma AiScoreMonotone(a: LeadData, b: LeadData)
    requires AtLeastAsComplete(a, b)
    ensures AiScore(a) <= AiScore(b)
  {
    assert NamePoints(a) <= NamePoints(b);
    assert PhonePoints(a) <= PhonePoints(b);
    assert WebsitePoints(a) <= WebsitePoints(b);
    assert AddressPoints(a) <= AddressPoints(b);
    assert RatingPoints(a) <= RatingPoints(b);
    assert ReviewPoints(a) <= ReviewPoints(b);
    assert CategoryPoints(a) <= CategoryPoints(b);
  }

  /** `calculate_ai_score`: accumulates the points field by field, then clamps to 0..100. */
  method CalculateAiScore(lead: LeadData) returns (score: int)
    ensures score == AiScore(lead)
    ensures 0 <= score <= 100
  {
    score := 0;
    if TruthyText(lead.name) {
      score := score + 10;
    }
    assert score == NamePoints(lead);
    if TruthyText(lead.phone) {
      if IsValidPhone(lead.phone.value) {
        score := score + 20;
      } else {
        score := score + 10;
      }
    }
    assert score == NamePoints(lead) + PhonePoints(lead);
    if TruthyText(lead.website) {
      if IsValidWebsite(lead.website.value) {
        score := score + 20;
      } else {
        score := score + 10;
      }
    }
    assert score == NamePoints(lead) + PhonePoints(lead) + WebsitePoints(lead);
    if TruthyText(lead.address) {
      if |lead.address.value| > 20 {
        score := score + 15;
      } else {
        score := score + 8;
      }
    }
    assert score == NamePoints(lead) + PhonePoints(lead) + WebsitePoints(lead) + AddressPoints(lead);
    if TruthyReal(lead.rating) {
      var rating := lead.rating.value;
      if rating >= 4.5 {
        score := score + 15;
      } else if rating >= 4.0 {
        score := score + 12;
      } else if rating >= 3.5 {
        score := score + 8;
      } else {
        score := score + 5;
      }
    }
    assert score == NamePoints(lead) + PhonePoints(lead) + WebsitePoints(lead) + AddressPoints(lead)
                    + RatingPoints(lead);
    if TruthyInt(lead.reviewsCount) {
      var reviews := lead.reviewsCount.value;
      if reviews >= 100 {
        score := score + 15;
      } else if reviews >= 50 {
        score := score + 12;
      } else if reviews >= 20 {
        score := score + 8;
      } else {
        score := score + 5;
      }
    }
    assert score == NamePoints(lead) + PhonePoints(lead) + WebsitePoints(lead) + AddressPoints(lead)
                    + RatingPoints(lead) + ReviewPoints(lead);
    if TruthyText(lead.category) {
      score := score + 5;
    }
    AiScoreRange(lead);
    score := if score < 0 then 0 else if score > 100 then 100 else score;
  }

  // ---------------------------------------------------------------- priority

  /** `assign_priority`: A from 80 up, B from 60 to 79, C below 60. */
  function AssignPriority(aiScore: int): (p: Priority)
    ensures p == A <==> aiScore >= 80
    ensures p == B <==> 60 <= aiScore < 80
    ensures p == C <==> aiScore < 60
  {
    if aiScore >= 80 then A else if aiScore >= 60 then B else C
  }

  /** A higher score never gets a colder tier. */
  lemma PriorityMonotone(s1: int, s2: int)
    requires s1 <= s2
    ensures AssignPriority(s1).Rank() <= AssignPriority(s2).Rank()
  {
  }

  // ---------------------------------------------------------------- conversion probability

  function ConversionBonus(lead: LeadData): int {
    (if !TruthyReal(lead.rating) then 0
     else if lead.rating.value >= 4.5 then 10
     else if lead.rating.value >= 4.0 then 5
     else 0)
    + (if !TruthyInt(lead.reviewsCount) then 0
       else if lead.reviewsCount.value >= 100 then 10
       else if lead.reviewsCount.value >= 50 then 5
       else 0)
    + (if TruthyText(lead.website) then 10 else 0)
    + (if TruthyText(lead.email) then 10 else 0)
  }

  /** Sixty percent of the AI score plus the bonus, capped at 100. */
  function ConversionProbability(lead: LeadData, aiScore: int): real {
    var total := 0.6 * aiScore as real + ConversionBonus(lead) as real;
    if total < 100.0 then total else 100.0
  }

  lemma ConversionBounds(lead: LeadData, aiScore: int)
    ensures 0 <= ConversionBonus(lead) <= 40
    ensures ConversionProbability(lead, aiScore) <= 100.0
    ensures aiScore >= 0 ==> 0.0 <= ConversionProbability(lead, aiScore)
    ensures ConversionProbability(lead, aiScore) >= 0.6 * aiScore as real || ConversionProbability(lead, aiScore) == 100.0
  {
  }

  /** Raising the AI score never lowers the conversion probability. */
  lemma ConversionMonotone(lead: LeadData, s1: int, s2: int)
    requires s1 <= s2
    ensures ConversionProbability(lead, s1) <= ConversionProbability(lead, s2)
  {
  }

  /** `calculate_conversion_probability`: accumulates the bonus, then caps the total. */
  method CalculateConversionProbability(lead: LeadData, aiScore: int) returns (p: real)
    ensures p == ConversionProbability(lead, aiScore)
    ensures p <= 100.0
    ensures aiScore >= 0 ==> 0.0 <= p
  {
    var baseProbability := 0.6 * aiScore as real;
    var bonus := 0;
    if TruthyReal(lead.rating) {
      if lead.rating.value >= 4.5 {
        bonus := bonus + 10;
      } else if lead.rating.value >= 4.0 {
        bonus := bonus + 5;
      }
    }
    if TruthyInt(lead.reviewsCount) {
      if lead.reviewsCount.value >= 100 {
        bonus := bonus + 10;
      } else if lead.reviewsCount.value >= 50 {
        bonus := bonus + 5;
      }
    }
    if TruthyText(lead.website) {
      bonus := bonus + 10;
    }
    if TruthyText(lead.email) {
      bonus := bonus + 10;
    }
    var total := baseProbability + bonus as real;
    p := if total < 100.0 then total else 100.0;
    ConversionBounds(lead, aiScore);
  }

  // ---------------------------------------------------------------- data quality

  /** Which of the nine checked fields are filled, in the listed order. */
  function FilledFlags(lead: LeadData): (flags: seq<bool>)
    ensures |flags| == 9
  {
    [ TruthyText(lead.name), TruthyText(lead.phone), TruthyText(lead.email),
      TruthyText(lead.website), TruthyText(lead.address), TruthyReal(lead.rating),
      TruthyInt(lead.reviewsCount), TruthyText(lead.category), TruthyText(lead.mapsUrl) ]
  }

  function CountTrue(flags: seq<bool>): (n: nat)
    ensures n <= |flags|
    ensures n == |flags| <==> forall i :: 0 <= i < |flags| ==> flags[i]
    ensures n == 0 <==> forall i :: 0 <= i < |flags| ==> !flags[i]
    decreases |flags|
  {
    if flags == [] then 0 else (if flags[0] then 1 else 0) + CountTrue(flags[1..])
  }

  lemma {:induction false} CountTrueMonotone(f: seq<bool>, g: seq<bool>)
    requires |f| == |g|
    requires forall i :: 0 <= i < |f| ==> f[i] ==> g[i]
    ensures CountTrue(f) <= CountTrue(g)
    decreases |f|
  {
    if f != [] {
      CountTrueMonotone(f[1..], g[1..]);
    }
  }

  /**
   * `calculate_data_quality_score`: the filled share of the nine fields as a
   * whole percentage. The source's `int((filled / 9) * 100)` lands on the
   * same integer as the exact floor for every filled count from 0 to 9.
   */
  function DataQualityScore(lead: LeadData): (q: int)
    ensures 0 <= q <= 100
    ensures q == 0 <==> forall i :: 0 <= i < 9 ==> !FilledFlags(lead)[i]
    ensures q == 100 <==> forall i :: 0 <= i < 9 ==> FilledFlags(lead)[i]
  {
    CountTrue(FilledFlags(lead)) * 100 / 9
  }

  /** Filling in a missing field never lowers the data quality score. */
  lemma DataQualityMonotone(a: LeadData, b: LeadData)
    requires AtLeastAsComplete(a, b)
    ensures DataQualityScore(a) <= DataQualityScore(b)
  {
    CountTrueMonotone(FilledFlags(a), FilledFlags(b));
  }

  // ---------------------------------------------------------------- revenue band and action

  /** `determine_revenue_potential`. A missing review count cannot lift a lead into the High band. */
  function RevenuePotential(lead: LeadData, aiScore: int): (r: string)
    ensures r == HighRevenue <==> aiScore >= 80 && lead.reviewsCount.Some? && lead.reviewsCount.value >= 50
    ensures r == LowRevenue <==> aiScore < 60
    ensures r == MediumRevenue <==> r != HighRevenue && r != LowRevenue
  {
    if aiScore >= 80 then
      if lead.reviewsCount.Some? && lead.reviewsCount.value >= 50 then HighRevenue else MediumRevenue
    else if aiScore >= 60 then MediumRevenue
    else LowRevenue
  }

  function RevenueRank(band: string): nat {
    if band == HighRevenue then 2 else if band == MediumRevenue then 1 else 0
  }

  /** For a fixed lead, a higher score never gets a lower revenue band. */
  lemma RevenueMonotone(lead: LeadData, s1: int, s2: int)
    requires s1 <= s2
    ensures RevenueRank(RevenuePotential(lead, s1)) <= RevenueRank(RevenuePotential(lead, s2))
  {
  }

  /** `get_recommended_action`: depends on the tier and on which contact channels exist. */
  function RecommendedAction(lead: LeadData, priority: Priority): (r: string)
    ensures priority == C ==> r == Drip
    ensures priority == A && TruthyText(lead.phone) ==> r == CallNow
    ensures priority == A && !TruthyText(lead.phone) ==> r == (if TruthyText(lead.email) then EmailSoon else ResearchContact)
    ensures priority == B ==> (r == FollowUp <==> TruthyText(lead.phone) || TruthyText(lead.email))
    ensures priority == B ==> r in {FollowUp, Nurture}
  {
    match priority
    case A =>
      if TruthyText(lead.phone) then CallNow
      else if TruthyText(lead.email) then EmailSoon
      else ResearchContact
    case B =>
      if TruthyText(lead.phone) || TruthyText(lead.email) then FollowUp else Nurture
    case C => Drip
  }

  // ---------------------------------------------------------------- the complete score

  datatype LeadScore = LeadScore(
    aiScore: int,
    priority: Priority,
    conversionProbability: real,
    dataQualityScore: int,
    revenuePotential: string,
    recommendedAction: string)

  /** `score_lead`: every metric, with the tier and the revenue band consistent with each other. */
  method ScoreLead(lead: LeadData) returns (s: LeadScore)
    ensures s.aiScore == AiScore(lead) && 0 <= s.aiScore <= 100
    ensures s.priority == AssignPriority(s.aiScore)
    ensures s.conversionProbability == ConversionProbability(lead, s.aiScore)
    ensures 0.0 <= s.conversionProbability <= 100.0
    ensures s.dataQualityScore == DataQualityScore(lead)
    ensures s.revenuePotential == RevenuePotential(lead, s.aiScore)
    ensures s.recommendedAction == RecommendedAction(lead, s.priority)
    ensures s.priority == C <==> s.revenuePotential == LowRevenue
    ensures s.priority == C ==> s.recommendedAction == Drip
    ensures s.priority == A && TruthyText(lead.phone) ==> s.recommendedAction == CallNow
    ensures s.revenuePotential == HighRevenue ==> s.priority == A
  {
    var aiScore := CalculateAiScore(lead);
    var priority := AssignPriority(aiScore);
    var conversion := CalculateConversionProbability(lead, aiScore);
    var quality := DataQualityScore(lead);
    var revenue := RevenuePotential(lead, aiScore);
    var action := RecommendedAction(lead, priority);
    s := LeadScore(aiScore, priority, conversion, quality, revenue, action);
  }
}
