/** Reference definitions of the feature bucketizers the pages share: the age decade,
    the ID-document tenure, the organisation category and the income bracket. Each is
    written in a table-driven form (a threshold table and a count, a rule table and a
    first match) so that the if/elif cascades each page carries can be proved equal to
    it, and each carries the properties the pages rely on. */
module FeatureRules {
  import opened Text
  import opened Thresholds

  // ---------------------------------------------------------------------------
  // Age decade
  // ---------------------------------------------------------------------------

  /** Age in whole years, `-days_birth // 365`: Python's floor division by a positive
      divisor is Dafny's `/` on `int`. */
  function AgeInYears(daysBirth: int): (age: int)
    ensures 365 * age <= -daysBirth < 365 * (age + 1)
  {
    -daysBirth / 365
  }

  /** `decade` is the multiple of ten that starts the decade `age` falls in. */
  ghost predicate IsDecadeOf(decade: int, age: int) {
    decade % 10 == 0 && decade <= age < decade + 10
  }

  function AgeDecade(age: int): (decade: int)
    ensures IsDecadeOf(decade, age)
  {
    age - age % 10
  }

  /** An age lies in exactly one decade. */
  lemma DecadeUnique(a: int, b: int, age: int)
    requires IsDecadeOf(a, age) && IsDecadeOf(b, age)
    ensures a == b
  {
    assert -10 < a - b < 10;
    assert (a - b) % 10 == 0;
  }

  /** The label a decade is displayed with, such as "30s". */
  function DecadeLabel(decade: int): string {
    IntToString(decade) + "s"
  }

  /** The last digit of a decimal notation is the number's last digit. */
  lemma LastDigit(n: nat)
    ensures NatToString(n)[|NatToString(n)| - 1] == DigitChar(n % 10)
  {
  }

  /** A decade label always ends in "0s", whatever the sign of the decade. */
  lemma DecadeLabelEndsInZeroS(decade: int)
    requires decade % 10 == 0
    ensures var l := DecadeLabel(decade); |l| >= 2 && l[|l| - 2..] == "0s"
  {
    var m := if decade < 0 then -decade else decade;
    assert m % 10 == 0;
    var digits := NatToString(m);
    LastDigit(m);
    var l := DecadeLabel(decade);
    if decade < 0 {
      assert l == "-" + digits + "s";
    } else {
      assert l == digits + "s";
    }
    assert l[|l| - 2] == digits[|digits| - 1];
  }

  /** For a birth in the past (`daysBirth <= 0`) the label is digits followed by 's';
      the digits read back as the decade of the age, which is a non-negative multiple
      of ten not above the age and less than ten below it. */
  lemma PastBirthLabel(daysBirth: int)
    requires daysBirth <= 0
    ensures var l := DecadeLabel(AgeDecade(AgeInYears(daysBirth)));
            && |l| >= 2 && l[|l| - 1] == 's' && l[|l| - 2] == '0'
            && AllDigits(l[..|l| - 1])
            && ParseNat(l[..|l| - 1]) % 10 == 0
            && ParseNat(l[..|l| - 1]) <= AgeInYears(daysBirth) < ParseNat(l[..|l| - 1]) + 10
  {
    var decade := AgeDecade(AgeInYears(daysBirth));
    assert decade >= 0;
    var l := DecadeLabel(decade);
    assert l[..|l| - 1] == NatToString(decade);
    ParseNatToString(decade);
    DecadeLabelEndsInZeroS(decade);
    assert l[|l| - 2] == l[|l| - 2..][0];
  }

  // ---------------------------------------------------------------------------
  // Tenure since the ID document was issued
  // ---------------------------------------------------------------------------

  /** Buckets from the least to the most senior. */
  const TenureLabels: seq<string> := ["< 1 year", "1-5 years", "5-10 years", "> 10 years"]

  /** Day offsets a value must lie strictly below to pass to the next bucket. */
  const TenureThresholds: seq<int> := [-365, -1825, -3650]

  /** Seniority of a day offset: how many thresholds it lies strictly below. */
  function TenureRank(daysIdPublish: int): (k: nat)
    ensures k < |TenureLabels|
  {
    CountExceeded(TenureThresholds, daysIdPublish)
  }

  function TenureLabel(daysIdPublish: int): string {
    TenureLabels[TenureRank(daysIdPublish)]
  }

  /** Going further back never gives a less senior bucket. */
  lemma TenureMonotone(d: int, e: int)
    requires d <= e
    ensures TenureRank(e) <= TenureRank(d)
  {
    CountExceededAntitone(TenureThresholds, d, e);
  }

  /** Strict comparisons: each threshold itself goes to the less senior bucket. */
  lemma TenureBoundaries()
    ensures TenureLabel(-3651) == "> 10 years"
    ensures TenureLabel(-3650) == "5-10 years"
    ensures TenureLabel(-1826) == "5-10 years"
    ensures TenureLabel(-1825) == "1-5 years"
    ensures TenureLabel(-366) == "1-5 years"
    ensures TenureLabel(-365) == "< 1 year"
  {
  }

  /** Anything issued at most a year ago, or dated in the future, is "< 1 year". */
  lemma TenureRecent(d: int)
    requires d >= -365
    ensures TenureLabel(d) == "< 1 year"
  {
  }

  // ---------------------------------------------------------------------------
  // Organisation category
  // ---------------------------------------------------------------------------

  /** The fifteen categories an organisation type is grouped into. */
  datatype Category =
    | Education | Freelance | Government | Healthcare | Finance | Retail | Logistics
    | Utilities | Industry | Hospitality | Services | Agriculture | Tech | Culture | Other

  /** The label each category is displayed with. */
  function CategoryName(c: Category): string {
    match c
    case Education => "Education"
    case Freelance => "Freelance"
    case Government => "Government"
    case Healthcare => "Healthcare"
    case Finance => "Finance"
    case Retail => "Retail"
    case Logistics => "Logistics"
    case Utilities => "Utilities"
    case Industry => "Industry"
    case Hospitality => "Hospitality"
    case Services => "Services"
    case Agriculture => "Agriculture"
    case Tech => "Tech"
    case Culture => "Culture"
    case Other => "Other"
  }

  /** One rule of the category table: its category, the organisation types that match
      it exactly, and the fragments any one of which matches it when contained. */
  datatype OrgRule = OrgRule(category: Category, names: set<string>, fragments: seq<string>)

  /** Some fragment of `fragments` occurs in `s`. */
  predicate ContainsAny(s: string, fragments: seq<string>)
    decreases |fragments|
  {
    |fragments| > 0 && (Contains(s, fragments[0]) || ContainsAny(s, fragments[1..]))
  }

  predicate RuleMatches(rule: OrgRule, orgType: string) {
    orgType in rule.names || ContainsAny(orgType, rule.fragments)
  }

  // The rows of the rule table, one per category but Other.
  const EducationRule := OrgRule(Education, {"Kindergarten", "School", "University"}, [])
  const FreelanceRule := OrgRule(Freelance, {"Self-employed"}, [])
  const GovernmentRule := OrgRule(Government, {"Government", "Military", "Police", "Security Ministries", "Postal", "Emergency"}, [])
  const HealthcareRule := OrgRule(Healthcare, {"Medicine", "Social Services"}, [])
  const FinanceRule := OrgRule(Finance, {"Bank", "Insurance", "Legal Services"}, [])
  const RetailRule := OrgRule(Retail, {"Realtor"}, ["Trade: type"])
  const LogisticsRule := OrgRule(Logistics, {"Telecom"}, ["Transport: type"])
  const UtilitiesRule := OrgRule(Utilities, {"Electricity"}, ["Water Supply", "Waste Management"])
  const IndustryRule := OrgRule(Industry, {"Construction"}, ["Industry: type"])
  const HospitalityRule := OrgRule(Hospitality, {"Restaurant", "Hotel"}, [])
  const ServicesRule := OrgRule(Services, {"Advertising", "Cleaning", "Services", "Security"}, [])
  const AgricultureRule := OrgRule(Agriculture, {"Agriculture"}, [])
  const TechRule := OrgRule(Tech, {"IT", "Mobile"}, [])
  const CultureRule := OrgRule(Culture, {"Culture", "Religion"}, [])

  /** The rules in the order they are tried. */
  const OrgRules: seq<OrgRule> := [
    EducationRule, FreelanceRule, GovernmentRule, HealthcareRule, FinanceRule,
    RetailRule, LogisticsRule, UtilitiesRule, IndustryRule, HospitalityRule,
    ServicesRule, AgricultureRule, TechRule, CultureRule
  ]

  /** Index of the first rule of `rules` from `i` on that matches, or `|rules|` when
      none does. */
  function FirstMatchFrom(rules: seq<OrgRule>, i: nat, orgType: string): (k: nat)
    requires i <= |rules|
    ensures i <= k <= |rules|
    decreases |rules| - i
  {
    if i == |rules| then i
    else if RuleMatches(rules[i], orgType) then i
    else FirstMatchFrom(rules, i + 1, orgType)
  }

  /** The index found matches, and no rule between the start and it does. */
  lemma {:induction false} FirstMatchFromIsFirst(rules: seq<OrgRule>, i: nat, orgType: string)
    requires i <= |rules|
    ensures var k := FirstMatchFrom(rules, i, orgType);
            && (k < |rules| ==> RuleMatches(rules[k], orgType))
            && forall j | i <= j < k :: !RuleMatches(rules[j], orgType)
    decreases |rules| - i
  {
    if i < |rules| && !RuleMatches(rules[i], orgType) {
      FirstMatchFromIsFirst(rules, i + 1, orgType);
    }
  }

  /** First match wins, in both directions: the search from `i` stops at `k` exactly
      when rule `k` is the first from `i` on that matches (or none does and `k` is
      past the end). */
  lemma FirstMatchFromIff(rules: seq<OrgRule>, i: nat, orgType: string, k: nat)
    requires i <= k <= |rules|
    ensures FirstMatchFrom(rules, i, orgType) == k <==>
              && (k < |rules| ==> RuleMatches(rules[k], orgType))
              && forall j | i <= j < k :: !RuleMatches(rules[j], orgType)
  {
    FirstMatchFromIsFirst(rules, i, orgType);
  }

  /** The category of an organisation type: that of the first matching rule, Other
      when none matches. */
  function OrgCategory(orgType: string): Category {
    var k := FirstMatchFrom(OrgRules, 0, orgType);
    if k < |OrgRules| then OrgRules[k].category else Other
  }

  /** Distinct categories are displayed with distinct labels. */
  lemma CategoryNameInjective(c: Category, d: Category)
    requires CategoryName(c) == CategoryName(d)
    ensures c == d
  {
  }

  /** Each category but Other has exactly one rule. */
  lemma RuleCategoriesDistinct(i: nat, j: nat)
    requires i < |OrgRules| && j < |OrgRules|
    ensures OrgRules[i].category != Other
    ensures OrgRules[i].category == OrgRules[j].category ==> i == j
  {
  }

  /** Other exactly when no rule matches. */
  lemma OrgCategoryOther(orgType: string)
    ensures OrgCategory(orgType) == Other <==>
              forall j | 0 <= j < |OrgRules| :: !RuleMatches(OrgRules[j], orgType)
  {
    var k := FirstMatchFrom(OrgRules, 0, orgType);
    FirstMatchFromIsFirst(OrgRules, 0, orgType);
    if k < |OrgRules| {
      RuleCategoriesDistinct(k, k);
    }
  }

  /** No exact name of the first five rules has ':' or 'W'. */
  lemma EarlyNamesExcluded(orgType: string, c: char)
    requires c in orgType && (c == ':' || c == 'W')
    ensures orgType !in EducationRule.names && orgType !in FreelanceRule.names
    ensures orgType !in GovernmentRule.names && orgType !in HealthcareRule.names
    ensures orgType !in FinanceRule.names
  {
  }

  /** Any type containing "Trade: type" is Retail: it contains ':', which no exact
      name of an earlier rule does. */
  lemma TradeIsRetail(orgType: string)
    requires Contains(orgType, "Trade: type")
    ensures OrgCategory(orgType) == Retail
  {
    ContainsHasChars(orgType, "Trade: type", 5);
    EarlyNamesExcluded(orgType, ':');
    assert FirstMatchFrom(OrgRules, 0, orgType) == FirstMatchFrom(OrgRules, 1, orgType);
    assert FirstMatchFrom(OrgRules, 1, orgType) == FirstMatchFrom(OrgRules, 2, orgType);
    assert FirstMatchFrom(OrgRules, 2, orgType) == FirstMatchFrom(OrgRules, 3, orgType);
    assert FirstMatchFrom(OrgRules, 3, orgType) == FirstMatchFrom(OrgRules, 4, orgType);
    assert FirstMatchFrom(OrgRules, 4, orgType) == FirstMatchFrom(OrgRules, 5, orgType);
  }

  /** Otherwise, any type containing "Transport: type" is Logistics. */
  lemma TransportIsLogistics(orgType: string)
    requires Contains(orgType, "Transport: type") && !Contains(orgType, "Trade: type")
    ensures OrgCategory(orgType) == Logistics
  {
    ContainsHasChars(orgType, "Transport: type", 9);
    EarlyNamesExcluded(orgType, ':');
    assert FirstMatchFrom(OrgRules, 0, orgType) == FirstMatchFrom(OrgRules, 1, orgType);
    assert FirstMatchFrom(OrgRules, 1, orgType) == FirstMatchFrom(OrgRules, 2, orgType);
    assert FirstMatchFrom(OrgRules, 2, orgType) == FirstMatchFrom(OrgRules, 3, orgType);
    assert FirstMatchFrom(OrgRules, 3, orgType) == FirstMatchFrom(OrgRules, 4, orgType);
    assert FirstMatchFrom(OrgRules, 4, orgType) == FirstMatchFrom(OrgRules, 5, orgType);
    assert FirstMatchFrom(OrgRules, 5, orgType) == FirstMatchFrom(OrgRules, 6, orgType);
  }

  /** Otherwise, any type containing "Water Supply" or "Waste Management" is Utilities:
      both contain 'W', which no exact name of an earlier rule does. */
  lemma WaterAndWasteAreUtilities(orgType: string)
    requires Contains(orgType, "Water Supply") || Contains(orgType, "Waste Management")
    requires !Contains(orgType, "Trade: type") && !Contains(orgType, "Transport: type")
    ensures OrgCategory(orgType) == Utilities
  {
    if Contains(orgType, "Water Supply") {
      ContainsHasChars(orgType, "Water Supply", 0);
    } else {
      ContainsHasChars(orgType, "Waste Management", 0);
    }
    EarlyNamesExcluded(orgType, 'W');
    assert FirstMatchFrom(OrgRules, 0, orgType) == FirstMatchFrom(OrgRules, 1, orgType);
    assert FirstMatchFrom(OrgRules, 1, orgType) == FirstMatchFrom(OrgRules, 2, orgType);
    assert FirstMatchFrom(OrgRules, 2, orgType) == FirstMatchFrom(OrgRules, 3, orgType);
    assert FirstMatchFrom(OrgRules, 3, orgType) == FirstMatchFrom(OrgRules, 4, orgType);
    assert FirstMatchFrom(OrgRules, 4, orgType) == FirstMatchFrom(OrgRules, 5, orgType);
    assert FirstMatchFrom(OrgRules, 5, orgType) == FirstMatchFrom(OrgRules, 6, orgType);
    assert FirstMatchFrom(OrgRules, 6, orgType) == FirstMatchFrom(OrgRules, 7, orgType);
  }

  /** Otherwise, any type containing "Industry: type" is Industry. */
  lemma IndustryTypeIsIndustry(orgType: string)
    requires Contains(orgType, "Industry: type")
    requires !Contains(orgType, "Trade: type") && !Contains(orgType, "Transport: type")
    requires !Contains(orgType, "Water Supply") && !Contains(orgType, "Waste Management")
    ensures OrgCategory(orgType) == Industry
  {
    ContainsHasChars(orgType, "Industry: type", 8);
    EarlyNamesExcluded(orgType, ':');
    assert FirstMatchFrom(OrgRules, 0, orgType) == FirstMatchFrom(OrgRules, 1, orgType);
    assert FirstMatchFrom(OrgRules, 1, orgType) == FirstMatchFrom(OrgRules, 2, orgType);
    assert FirstMatchFrom(OrgRules, 2, orgType) == FirstMatchFrom(OrgRules, 3, orgType);
    assert FirstMatchFrom(OrgRules, 3, orgType) == FirstMatchFrom(OrgRules, 4, orgType);
    assert FirstMatchFrom(OrgRules, 4, orgType) == FirstMatchFrom(OrgRules, 5, orgType);
    assert FirstMatchFrom(OrgRules, 5, orgType) == FirstMatchFrom(OrgRules, 6, orgType);
    assert FirstMatchFrom(OrgRules, 6, orgType) == FirstMatchFrom(OrgRules, 7, orgType);
    assert FirstMatchFrom(OrgRules, 7, orgType) == FirstMatchFrom(OrgRules, 8, orgType);
  }

  /** Every exact name of the table. */
  const ListedNames: set<string> := {
    "Kindergarten", "School", "University", "Self-employed", "Government", "Military",
    "Police", "Security Ministries", "Postal", "Emergency", "Medicine", "Social Services",
    "Bank", "Insurance", "Legal Services", "Realtor", "Telecom", "Electricity",
    "Construction", "Restaurant", "Hotel", "Advertising", "Cleaning", "Services",
    "Security", "Agriculture", "IT", "Mobile", "Culture", "Religion"
  }

  /** A type that is none of the exact names and lacks ':' and 'W' passes the first
      seven rules. */
  lemma UnlistedPassesEarlyRules(orgType: string)
    requires ':' !in orgType && 'W' !in orgType && orgType !in ListedNames
    ensures FirstMatchFrom(OrgRules, 0, orgType) == FirstMatchFrom(OrgRules, 7, orgType)
  {
    MissingCharNotContained(orgType, "Trade: type", 5);
    MissingCharNotContained(orgType, "Transport: type", 9);
    assert FirstMatchFrom(OrgRules, 0, orgType) == FirstMatchFrom(OrgRules, 1, orgType);
    assert FirstMatchFrom(OrgRules, 1, orgType) == FirstMatchFrom(OrgRules, 2, orgType);
    assert FirstMatchFrom(OrgRules, 2, orgType) == FirstMatchFrom(OrgRules, 3, orgType);
    assert FirstMatchFrom(OrgRules, 3, orgType) == FirstMatchFrom(OrgRules, 4, orgType);
    assert FirstMatchFrom(OrgRules, 4, orgType) == FirstMatchFrom(OrgRules, 5, orgType);
    assert FirstMatchFrom(OrgRules, 5, orgType) == FirstMatchFrom(OrgRules, 6, orgType);
    assert FirstMatchFrom(OrgRules, 6, orgType) == FirstMatchFrom(OrgRules, 7, orgType);
  }

  /** A type that is none of the exact names, and contains none of the fragments
      because it lacks ':' and 'W', is Other. */
  lemma UnlistedIsOther(orgType: string)
    requires ':' !in orgType && 'W' !in orgType && orgType !in ListedNames
    ensures OrgCategory(orgType) == Other
  {
    UnlistedPassesEarlyRules(orgType);
    MissingCharNotContained(orgType, "Water Supply", 0);
    MissingCharNotContained(orgType, "Waste Management", 0);
    MissingCharNotContained(orgType, "Industry: type", 8);
    assert FirstMatchFrom(OrgRules, 7, orgType) == FirstMatchFrom(OrgRules, 8, orgType);
    assert FirstMatchFrom(OrgRules, 8, orgType) == FirstMatchFrom(OrgRules, 9, orgType);
    assert FirstMatchFrom(OrgRules, 9, orgType) == FirstMatchFrom(OrgRules, 10, orgType);
    assert FirstMatchFrom(OrgRules, 10, orgType) == FirstMatchFrom(OrgRules, 11, orgType);
    assert FirstMatchFrom(OrgRules, 11, orgType) == FirstMatchFrom(OrgRules, 12, orgType);
    assert FirstMatchFrom(OrgRules, 12, orgType) == FirstMatchFrom(OrgRules, 13, orgType);
    assert FirstMatchFrom(OrgRules, 13, orgType) == FirstMatchFrom(OrgRules, 14, orgType);
  }

  /** "XNA", "Housing" and "Other" from the selection list fall to Other. */
  lemma PlainChoicesAreOther(orgType: string)
    requires orgType == "XNA" || orgType == "Housing" || orgType == "Other"
    ensures OrgCategory(orgType) == Other
  {
    UnlistedIsOther(orgType);
  }

  /** "Business Entity Type 1" to "Business Entity Type 3" fall to Other. */
  lemma BusinessEntityTypesAreOther(n: char)
    requires '1' <= n <= '3'
    ensures OrgCategory("Business Entity Type " + [n]) == Other
  {
    var orgType := "Business Entity Type " + [n];
    assert ':' !in orgType && 'W' !in orgType && |orgType| == 22;
    UnlistedIsOther(orgType);
  }

  // ---------------------------------------------------------------------------
  // Income bracket
  // ---------------------------------------------------------------------------

  /** Lower bounds of brackets 1 to 5 (bracket 0 is everything below the first). */
  const IncomeThresholds: seq<real> := [100000.0, 200000.0, 300000.0, 400000.0, 500000.0]

  const IncomeLabels: seq<string> := [
    "<$100,000", "$100,000 - $199,999", "$200,000 - $299,999",
    "$300,000 - $399,999", "$400,000 - $499,999", "$500,000+"
  ]

  /** Bracket index: how many lower bounds the income has reached. */
  function IncomeBracket(income: real): (k: nat)
    ensures k < |IncomeLabels|
  {
    CountReached(IncomeThresholds, income)
  }

  function IncomeLabel(income: real): string {
    IncomeLabels[IncomeBracket(income)]
  }

  /** A larger income is never in a lower bracket. */
  lemma IncomeMonotone(x: real, y: real)
    requires x <= y
    ensures IncomeBracket(x) <= IncomeBracket(y)
  {
    CountReachedMonotone(IncomeThresholds, x, y);
  }

  /** Bracket `k` holds exactly the incomes from its lower bound (inclusive) to the next
      bound (exclusive); a value exactly at a bound goes to the higher bracket. */
  lemma IncomeBracketRange(income: real, k: nat)
    requires k < |IncomeLabels|
    ensures IncomeBracket(income) == k <==>
              (k == 0 || IncomeThresholds[k - 1] <= income) &&
              (k == |IncomeThresholds| || income < IncomeThresholds[k])
  {
    CountReachedIsGap(IncomeThresholds, income, k);
  }

  lemma IncomeBoundaries()
    ensures IncomeLabel(99999.99) == "<$100,000"
    ensures IncomeLabel(100000.0) == "$100,000 - $199,999"
    ensures IncomeLabel(499999.99) == "$400,000 - $499,999"
    ensures IncomeLabel(500000.0) == "$500,000+"
  {
  }
}
