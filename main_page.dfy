/** The rule layer of the single-page dashboard (Main.py): its own copies of the four
    bucketizers, the column lists, the tier cascade, the gauge steps and the panel,
    each proved to agree with the two-page dashboard's copy or with the reference. */
module MainPage {
  import opened Text
  import opened FeatureRules
  import opened ScoreRules
  import opened RequestRules
  import DashboardNeo

  // ---------------------------------------------------------------------------
  // Bucketizers as written (Main.py:7-92)
  // ---------------------------------------------------------------------------

  /** `anonymize_birth`: the age decade of a (normally non-positive) day offset. */
  function AnonymizeBirth(daysBirth: int): string {
    var age := -daysBirth / 365;
    IntToString(age / 10 * 10) + "s"
  }

  /** `categorize_publish_days`: strict `<` thresholds, most senior first. */
  function CategorizePublishDays(daysIdPublish: int): string {
    if daysIdPublish < -3650 then "> 10 years"
    else if daysIdPublish < -1825 then "5-10 years"
    else if daysIdPublish < -365 then "1-5 years"
    else "< 1 year"
  }

  /** `categorize_org_type`: exact-name lists and substring tests, first match wins. */
  function CategorizeOrgType(orgType: string): string {
    if orgType in ["Kindergarten", "School", "University"] then "Education"
    else if orgType == "Self-employed" then "Freelance"
    else if orgType in ["Government", "Military", "Police", "Security Ministries", "Postal", "Emergency"] then "Government"
    else if orgType in ["Medicine", "Social Services"] then "Healthcare"
    else if orgType in ["Bank", "Insurance", "Legal Services"] then "Finance"
    else if Contains(orgType, "Trade: type") || orgType == "Realtor" then "Retail"
    else if Contains(orgType, "Transport: type") || orgType == "Telecom" then "Logistics"
    else if orgType == "Electricity" || Contains(orgType, "Water Supply") || Contains(orgType, "Waste Management") then "Utilities"
    else if Contains(orgType, "Industry: type") || orgType == "Construction" then "Industry"
    else if orgType in ["Restaurant", "Hotel"] then "Hospitality"
    else if orgType in ["Advertising", "Cleaning", "Services", "Security"] then "Services"
    else if orgType == "Agriculture" then "Agriculture"
    else if orgType in ["IT", "Mobile"] then "Tech"
    else if orgType in ["Culture", "Religion"] then "Culture"
    else "Other"
  }

  /** `categorize_income`: strict `<` bounds, lowest first. */
  function CategorizeIncome(income: real): string {
    if income < 100000.0 then "<$100,000"
    else if income < 200000.0 then "$100,000 - $199,999"
    else if income < 300000.0 then "$200,000 - $299,999"
    else if income < 400000.0 then "$300,000 - $399,999"
    else if income < 500000.0 then "$400,000 - $499,999"
    else "$500,000+"
  }

  // ---------------------------------------------------------------------------
  // The same results as the two-page dashboard
  // ---------------------------------------------------------------------------

  lemma AnonymizeBirthSame(daysBirth: int)
    ensures AnonymizeBirth(daysBirth) == DashboardNeo.AnonymizeBirth(daysBirth)
  {
  }

  lemma CategorizePublishDaysSame(daysIdPublish: int)
    ensures CategorizePublishDays(daysIdPublish) == DashboardNeo.CategorizePublishDays(daysIdPublish)
  {
  }

  lemma CategorizeOrgTypeSame(orgType: string)
    ensures CategorizeOrgType(orgType) == DashboardNeo.CategorizeOrgType(orgType)
  {
  }

  lemma CategorizeIncomeSame(income: real)
    ensures CategorizeIncome(income) == DashboardNeo.CategorizeIncome(income)
  {
  }

  /** Hence this page's bucketizers give the reference labels too. */
  lemma BucketizersAgree(daysBirth: int, daysIdPublish: int, orgType: string, income: real)
    ensures AnonymizeBirth(daysBirth) == DecadeLabel(AgeDecade(AgeInYears(daysBirth)))
    ensures CategorizePublishDays(daysIdPublish) == TenureLabel(daysIdPublish)
    ensures CategorizeOrgType(orgType) == CategoryName(OrgCategory(orgType))
    ensures CategorizeIncome(income) == IncomeLabel(income)
  {
    AnonymizeBirthSame(daysBirth);
    DashboardNeo.AnonymizeBirthAgrees(daysBirth);
    CategorizePublishDaysSame(daysIdPublish);
    DashboardNeo.CategorizePublishDaysAgrees(daysIdPublish);
    CategorizeOrgTypeSame(orgType);
    DashboardNeo.CategorizeOrgTypeAgrees(orgType);
    CategorizeIncomeSame(income);
    DashboardNeo.CategorizeIncomeAgrees(income);
  }

  // ---------------------------------------------------------------------------
  // Score interpretation (Main.py:136-196)
  // ---------------------------------------------------------------------------

  /** The advisory message, chosen highest threshold first. */
  function ScoreMessage(prediction: real): string {
    if prediction >= 80.0 then "This score indicates an excellent likelihood of loan approval. Congratulations, this is a very strong candidate."
    else if prediction >= 60.0 then "This score indicates a high likelihood of loan approval based on our assessment criteria."
    else if prediction >= 40.0 then "This score shows a moderate likelihood of loan approval. There may be some conditions or additional verifications needed."
    else if prediction >= 20.0 then "This score suggests a lower likelihood of loan approval. Consider reviewing the client's details or criteria."
    else "This score indicates a very low likelihood of loan approval. It's advisable to assess if the application aligns with the lending criteria."
  }

  /** The cascade shows the message of the tier the percentage lies in. */
  lemma ScoreMessageAgrees(prediction: real)
    ensures ScoreMessage(prediction) == TierMessage(TierOf(prediction))
  {
  }

  /** The steps of the gauge. */
  const GaugeSteps: seq<Band> := [
    Band(0.0, 19.5, "#f13c0b"),
    Band(19.5, 20.5, "#fffef5"),
    Band(20.5, 39.5, "#fe7900"),
    Band(39.5, 40.5, "#fffef5"),
    Band(40.5, 59.5, "#ffcf15"),
    Band(59.5, 60.5, "#fffef5"),
    Band(60.5, 79.5, "#88c817"),
    Band(79.5, 80.5, "#fffef5"),
    Band(80.5, 100.0, "#01bf11")
  ]

  /** The same steps as the two-page dashboard's gauge, hence the same shape. */
  lemma GaugeStepsSame()
    ensures GaugeSteps == DashboardNeo.GaugeSteps
    ensures GaugeShape(GaugeSteps, 100.0)
  {
    DashboardNeo.GaugeStepsShape();
  }

  /** A higher percentage never shows the message of a lower tier. */
  lemma ScoreMessageMonotone(p: real, q: real, s: Tier, t: Tier)
    requires p <= q
    requires ScoreMessage(p) == TierMessage(s) && ScoreMessage(q) == TierMessage(t)
    ensures TierRank(s) <= TierRank(t)
  {
    ScoreMessageAgrees(p);
    ScoreMessageAgrees(q);
    TierMessageInjective(s, TierOf(p));
    TierMessageInjective(t, TierOf(q));
    TierMonotone(p, q);
  }

  /** What the page shows for the scoring service's answer: on status 200 the
      percentage, its message and a gauge at the percentage; otherwise the failure
      banner. */
  function ShowPrediction(status: int, raw: real): (v: ScoreView)
    ensures v.Scored? <==> status == 200
    ensures v.Scored? ==> v.percent == Percent(raw) && v.gauge == v.percent
    ensures v.Scored? ==> v.message == TierMessage(TierOf(v.percent))
  {
    if status == 200 then
      var prediction := raw * 100.0;
      ScoreMessageAgrees(prediction);
      Scored(prediction, ScoreMessage(prediction), prediction)
    else
      ServerError
  }

  // ---------------------------------------------------------------------------
  // Column lists (Main.py:97-110)
  // ---------------------------------------------------------------------------

  const PredictionColumns: seq<string> := [
    "SK_ID_CURR", "DAYS_BIRTH", "DAYS_ID_PUBLISH", "REG_CITY_NOT_LIVE_CITY",
    "ORGANIZATION_TYPE", "EXT_SOURCE_1", "EXT_SOURCE_2", "EXT_SOURCE_3",
    "YEARS_BEGINEXPLUATATION_MODE", "COMMONAREA_MODE", "FLOORSMAX_MODE",
    "LIVINGAPARTMENTS_MODE", "YEARS_BUILD_MEDI", "CODE_GENDER", "FLAG_OWN_CAR"
  ]

  /** Seven display fields: the phone-change offset is not loaded on this page. */
  const InfoColumns: seq<string> := [
    "FLAG_OWN_REALTY", "AMT_INCOME_TOTAL", "NAME_INCOME_TYPE",
    "NAME_EDUCATION_TYPE", "NAME_FAMILY_STATUS", "NAME_HOUSING_TYPE", "AMT_CREDIT"
  ]

  const ColumnsToLoad: seq<string> := PredictionColumns + InfoColumns

  /** The same fifteen wire fields as the two-page dashboard, its first seven display
      fields, and twenty-two distinct columns loaded, none of them the phone-change
      offset. */
  lemma ColumnListsWellFormed()
    ensures PredictionColumns == DashboardNeo.PredictionColumns
    ensures InfoColumns == DashboardNeo.InfoColumns[..7]
    ensures |ColumnsToLoad| == 22 && Distinct(ColumnsToLoad)
    ensures "DAYS_LAST_PHONE_CHANGE" !in ColumnsToLoad
  {
    DashboardNeo.ColumnListsWellFormed();
    assert Distinct(InfoColumns) && Disjoint(PredictionColumns, InfoColumns) by {
      assert InfoColumns == DashboardNeo.InfoColumns[..7];
    }
    DistinctConcat(PredictionColumns, InfoColumns);
  }

  /** The payload sent for the selected client: the wire columns of its row. */
  function RowPayload(row: map<string, Json>): map<string, Json>
    requires forall i | 0 <= i < |PredictionColumns| :: PredictionColumns[i] in row
  {
    SelectColumns(row, PredictionColumns)
  }

  /** The same payload as the two-page dashboard sends for the same record, hence
      with the keys of its manual-entry payload. */
  lemma RowPayloadSame(row: map<string, Json>, f: FormInput)
    requires forall i | 0 <= i < |PredictionColumns| :: PredictionColumns[i] in row
    requires FormChoicesValid(f)
    ensures RowPayload(row) == DashboardNeo.RowPayload(row)
    ensures RowPayload(row).Keys == DashboardNeo.ClientData(f).Keys && |RowPayload(row).Keys| == 15
  {
    ColumnListsWellFormed();
    DashboardNeo.RowPayloadMatchesForm(row, f);
  }

  // ---------------------------------------------------------------------------
  // The dashboard panel (Main.py:209-269)
  // ---------------------------------------------------------------------------

  /** The selected client's row, after missing values have been dropped. */
  datatype ClientRow = ClientRow(
    daysBirth: int, daysIdPublish: int, orgType: string,
    gender: string, ownsCar: string, ownsRealty: string, income: real,
    incomeType: string, educationType: string, familyStatus: string,
    housingType: string, credit: real)

  function ClientColumn(row: ClientRow): seq<Metric> {
    [
      Metric("Client Age", AnonymizeBirth(row.daysBirth)),
      Metric("Gender", GenderDisplay(row.gender)),
      Metric("Job Field", CategorizeOrgType(row.orgType))
    ]
  }

  function IncomeColumn(row: ClientRow): seq<Metric> {
    [
      Metric("Income Total", CategorizeIncome(row.income)),
      Metric("Education Type", FirstSegment(row.educationType)),
      Metric("Income Type", FirstSegment(row.incomeType))
    ]
  }

  function HouseholdColumn(row: ClientRow): seq<Metric> {
    [
      Metric("Family Status", FirstSegment(row.familyStatus)),
      Metric("Housing Type", FirstSegment(row.housingType))
    ]
  }

  /** The housing type again, where the two-page dashboard shows the address flag. */
  function AddressColumn(row: ClientRow): seq<Metric> {
    [
      Metric("Housing Type", FirstSegment(row.housingType)),
      Metric("Time Between Receiving ID and Loan Request", CategorizePublishDays(row.daysIdPublish))
    ]
  }

  function PropertyColumn(row: ClientRow): seq<Metric> {
    [
      Metric("Owns a Car", FlagDisplay(row.ownsCar)),
      Metric("Owns Real Estate", FlagDisplay(row.ownsRealty))
    ]
  }

  /** The housing type a third time, where the two-page dashboard shows the months
      since the last phone change. */
  function CreditColumn(row: ClientRow): seq<Metric> {
    [
      Metric("Total Credit Amount", CreditDisplay(row.credit)),
      Metric("Housing Type", FirstSegment(row.housingType))
    ]
  }

  /** The metric columns of the panel, left to right and top to bottom. */
  function Panel(row: ClientRow): seq<seq<Metric>> {
    [ClientColumn(row), IncomeColumn(row), HouseholdColumn(row), AddressColumn(row),
     PropertyColumn(row), CreditColumn(row)]
  }

  /** The derived metrics are the reference labels. */
  lemma PanelAgrees(row: ClientRow)
    ensures ClientColumn(row)[0].value == DecadeLabel(AgeDecade(AgeInYears(row.daysBirth)))
    ensures ClientColumn(row)[2].value == CategoryName(OrgCategory(row.orgType))
    ensures IncomeColumn(row)[0].value == IncomeLabel(row.income)
    ensures AddressColumn(row)[1].value == TenureLabel(row.daysIdPublish)
  {
    BucketizersAgree(row.daysBirth, row.daysIdPublish, row.orgType, row.income);
  }

  /** The two pages have loaded the same client: every field this page loads agrees. */
  predicate SameClient(row: ClientRow, n: DashboardNeo.ClientRow) {
    && n.daysBirth == row.daysBirth && n.daysIdPublish == row.daysIdPublish
    && n.orgType == row.orgType && n.gender == row.gender
    && n.ownsCar == row.ownsCar && n.ownsRealty == row.ownsRealty
    && n.income == row.income && n.incomeType == row.incomeType
    && n.educationType == row.educationType && n.familyStatus == row.familyStatus
    && n.housingType == row.housingType && n.credit == row.credit
  }

  /** For the same client this panel shows the two-page dashboard's six columns, title
      and value alike, except in two places: where that panel shows the address flag
      and the months since the last phone change, this one repeats that panel's
      housing-type metric. */
  lemma PanelVersusNeo(row: ClientRow, n: DashboardNeo.ClientRow)
    requires SameClient(row, n)
    ensures var p, q := Panel(row), DashboardNeo.Panel(n);
            && |p| == |q| == 6
            && p[0] == q[0] && p[1] == q[1] && p[2] == q[2] && p[4] == q[4]
            && p[3] == [q[2][1], q[3][1]] && p[5] == [q[5][0], q[2][1]]
            && p[3][0].title != q[3][0].title && p[5][1].title != q[5][1].title
  {
    ClientColumnSame(row, n);
    IncomeColumnSame(row, n);
    AddressColumnVersusNeo(row, n);
  }

  lemma ClientColumnSame(row: ClientRow, n: DashboardNeo.ClientRow)
    requires SameClient(row, n)
    ensures ClientColumn(row) == DashboardNeo.ClientColumn(n)
  {
    AnonymizeBirthSame(row.daysBirth);
    CategorizeOrgTypeSame(row.orgType);
  }

  lemma IncomeColumnSame(row: ClientRow, n: DashboardNeo.ClientRow)
    requires SameClient(row, n)
    ensures IncomeColumn(row) == DashboardNeo.IncomeColumn(n)
  {
    CategorizeIncomeSame(row.income);
  }

  lemma AddressColumnVersusNeo(row: ClientRow, n: DashboardNeo.ClientRow)
    requires SameClient(row, n)
    ensures AddressColumn(row) == [DashboardNeo.HouseholdColumn(n)[1], DashboardNeo.AddressColumn(n)[1]]
  {
    CategorizePublishDaysSame(row.daysIdPublish);
  }
}
