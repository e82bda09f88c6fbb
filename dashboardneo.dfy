/** The rule layer of the two-page dashboard (Dashboardneo.py): the four nested
    feature bucketizers as the if/elif cascades they are written as, each proved equal
    to its reference definition. */
module DashboardNeo {
  import opened Text
  import opened FeatureRules
  import opened ScoreRules
  import opened RequestRules

  // ---------------------------------------------------------------------------
  // Bucketizers as written (Dashboardneo.py:14-100)
  // ---------------------------------------------------------------------------

  /** `anonymize_birth`: the age decade of a (normally non-positive) day offset. */
  function AnonymizeBirth(daysBirth: int): string {
    var age := -daysBirth / 365;
    IntToString(age / 10 * 10) + "s"
  }

  /** `categorize_publish_days`: strict `<` thresholds, most senior first. */
  function CategorizePublishDays(daysIdPublish: int): string {
    if daysIdPublish < -3650 then "> 10 years"
    else if daysIdPublish < -1825 then "5-10 years"
    else if daysIdPublish < -365 then "1-5 years"
    else "< 1 year"
  }

  /** `categorize_org_type`: exact-name lists and substring tests, first match wins. */
  function CategorizeOrgType(orgType: string): string {
    if orgType in ["Kindergarten", "School", "University"] then "Education"
    else if orgType == "Self-employed" then "Freelance"
    else if orgType in ["Government", "Military", "Police", "Security Ministries", "Postal", "Emergency"] then "Government"
    else if orgType in ["Medicine", "Social Services"] then "Healthcare"
    else if orgType in ["Bank", "Insurance", "Legal Services"] then "Finance"
    else if Contains(orgType, "Trade: type") || orgType == "Realtor" then "Retail"
    else if Contains(orgType, "Transport: type") || orgType == "Telecom" then "Logistics"
    else if orgType == "Electricity" || Contains(orgType, "Water Supply") || Contains(orgType, "Waste Management") then "Utilities"
    else if Contains(orgType, "Industry: type") || orgType == "Construction" then "Industry"
    else if orgType in ["Restaurant", "Hotel"] then "Hospitality"
    else if orgType in ["Advertising", "Cleaning", "Services", "Security"] then "Services"
    else if orgType == "Agriculture" then "Agriculture"
    else if orgType in ["IT", "Mobile"] then "Tech"
    else if orgType in ["Culture", "Religion"] then "Culture"
    else "Other"
  }

  /** `categorize_income`: strict `<` bounds, lowest first. */
  function CategorizeIncome(income: real): string {
    if income < 100000.0 then "<$100,000"
    else if income < 200000.0 then "$100,000 - $199,999"
    else if income < 300000.0 then "$200,000 - $299,999"
    else if income < 400000.0 then "$300,000 - $399,999"
    else if income < 500000.0 then "$400,000 - $499,999"
    else "$500,000+"
  }

  // ---------------------------------------------------------------------------
  // Agreement with the reference definitions
  // ---------------------------------------------------------------------------

  /** The label is that of the decade of the age in whole years. */
  lemma AnonymizeBirthAgrees(daysBirth: int)
    ensures AnonymizeBirth(daysBirth) == DecadeLabel(AgeDecade(AgeInYears(daysBirth)))
  {
    var age := AgeInYears(daysBirth);
    assert age / 10 * 10 == age - age % 10;
  }

  lemma CategorizePublishDaysAgrees(daysIdPublish: int)
    ensures CategorizePublishDays(daysIdPublish) == TenureLabel(daysIdPublish)
  {
  }

  lemma CategorizeIncomeAgrees(income: real)
    ensures CategorizeIncome(income) == IncomeLabel(income)
  {
  }

  /** For the five exact-name rules: rule `j` of the table matches exactly when the `j`-th condition
      of the cascade holds. */
  lemma ExactRuleConditions(orgType: string)
    ensures RuleMatches(OrgRules[0], orgType) <==> (orgType in ["Kindergarten", "School", "University"])
    ensures RuleMatches(OrgRules[1], orgType) <==> (orgType == "Self-employed")
    ensures RuleMatches(OrgRules[2], orgType) <==> (orgType in ["Government", "Military", "Police", "Security Ministries", "Postal", "Emergency"])
    ensures RuleMatches(OrgRules[3], orgType) <==> (orgType in ["Medicine", "Social Services"])
    ensures RuleMatches(OrgRules[4], orgType) <==> (orgType in ["Bank", "Insurance", "Legal Services"])
  {
  }

  /** For the four rules with fragments: rule `j` of the table matches exactly when the `j`-th condition
      of the cascade holds. */
  lemma FragmentRuleConditions(orgType: string)
    ensures RuleMatches(OrgRules[5], orgType) <==> (Contains(orgType, "Trade: type") || orgType == "Realtor")
    ensures RuleMatches(OrgRules[6], orgType) <==> (Contains(orgType, "Transport: type") || orgType == "Telecom")
    ensures RuleMatches(OrgRules[7], orgType) <==> (orgType == "Electricity" || Contains(orgType, "Water Supply") || Contains(orgType, "Waste Management"))
    ensures RuleMatches(OrgRules[8], orgType) <==> (Contains(orgType, "Industry: type") || orgType == "Construction")
  {
  }

  /** For the last five exact-name rules: rule `j` of the table matches exactly when the `j`-th condition
      of the cascade holds. */
  lemma LateRuleConditions(orgType: string)
    ensures RuleMatches(OrgRules[9], orgType) <==> (orgType in ["Restaurant", "Hotel"])
    ensures RuleMatches(OrgRules[10], orgType) <==> (orgType in ["Advertising", "Cleaning", "Services", "Security"])
    ensures RuleMatches(OrgRules[11], orgType) <==> (orgType == "Agriculture")
    ensures RuleMatches(OrgRules[12], orgType) <==> (orgType in ["IT", "Mobile"])
    ensures RuleMatches(OrgRules[13], orgType) <==> (orgType in ["Culture", "Religion"])
  {
  }

  /** The cascade gives the label of the reference category. */
  lemma CategorizeOrgTypeAgrees(orgType: string)
    ensures CategorizeOrgType(orgType) == CategoryName(OrgCategory(orgType))
  {
    ExactRuleConditions(orgType);
    FragmentRuleConditions(orgType);
    LateRuleConditions(orgType);
    FirstMatchFromIsFirst(OrgRules, 0, orgType);
  }
  // ---------------------------------------------------------------------------
  // Column lists (Dashboardneo.py:103-115)
  // ---------------------------------------------------------------------------

  /** The fields the scoring service expects, in the order they are listed. */
  const PredictionColumns: seq<string> := [
    "SK_ID_CURR", "DAYS_BIRTH", "DAYS_ID_PUBLISH", "REG_CITY_NOT_LIVE_CITY",
    "ORGANIZATION_TYPE", "EXT_SOURCE_1", "EXT_SOURCE_2", "EXT_SOURCE_3",
    "YEARS_BEGINEXPLUATATION_MODE", "COMMONAREA_MODE", "FLOORSMAX_MODE",
    "LIVINGAPARTMENTS_MODE", "YEARS_BUILD_MEDI", "CODE_GENDER", "FLAG_OWN_CAR"
  ]

  /** The further fields the dashboard shows. */
  const InfoColumns: seq<string> := [
    "FLAG_OWN_REALTY", "AMT_INCOME_TOTAL", "NAME_INCOME_TYPE",
    "NAME_EDUCATION_TYPE", "NAME_FAMILY_STATUS", "NAME_HOUSING_TYPE", "AMT_CREDIT",
    "DAYS_LAST_PHONE_CHANGE"
  ]

  const ColumnsToLoad: seq<string> := PredictionColumns + InfoColumns

  /** Fifteen distinct wire fields, eight distinct display fields, no field in both,
      so the twenty-three columns loaded are distinct too. */
  lemma ColumnListsWellFormed()
    ensures |PredictionColumns| == 15 && Distinct(PredictionColumns)
    ensures |InfoColumns| == 8 && Distinct(InfoColumns)
    ensures Disjoint(PredictionColumns, InfoColumns)
    ensures |ColumnsToLoad| == 23 && Distinct(ColumnsToLoad)
  {
    PredictionColumnsDistinct();
    InfoColumnsDistinct();
    ColumnListsDisjoint();
    DistinctConcat(PredictionColumns, InfoColumns);
  }

  lemma PredictionColumnsDistinct()
    ensures Distinct(PredictionColumns)
  {
  }

  lemma InfoColumnsDistinct()
    ensures Distinct(InfoColumns)
  {
  }

  lemma ColumnListsDisjoint()
    ensures Disjoint(PredictionColumns, InfoColumns)
  {
  }
  // ---------------------------------------------------------------------------
  // Score interpretation (Dashboardneo.py:136-150, 159-182)
  // ---------------------------------------------------------------------------

  /** The advisory message, chosen highest threshold first. */
  function ScoreMessage(prediction: real): string {
    if prediction >= 80.0 then "This score indicates an excellent likelihood of loan approval. Congratulations, this is a very strong candidate."
    else if prediction >= 60.0 then "This score indicates a high likelihood of loan approval based on our assessment criteria."
    else if prediction >= 40.0 then "This score shows a moderate likelihood of loan approval. There may be some conditions or additional verifications needed."
    else if prediction >= 20.0 then "This score suggests a lower likelihood of loan approval. Consider reviewing the client's details or criteria."
    else "This score indicates a very low likelihood of loan approval. It's advisable to assess if the application aligns with the lending criteria."
  }

  /** The cascade shows the message of the tier the percentage lies in. */
  lemma ScoreMessageAgrees(prediction: real)
    ensures ScoreMessage(prediction) == TierMessage(TierOf(prediction))
  {
  }

  /** What the page shows for the scoring service's answer: on status 200 the
      percentage, its message and a gauge at the percentage; otherwise the failure
      banner. */
  function ShowPrediction(status: int, raw: real): (v: ScoreView)
    ensures v.Scored? <==> status == 200
    ensures v.Scored? ==> v.percent == Percent(raw) && v.gauge == v.percent
    ensures v.Scored? ==> v.message == TierMessage(TierOf(v.percent))
  {
    if status == 200 then
      var prediction := raw * 100.0;
      ScoreMessageAgrees(prediction);
      Scored(prediction, ScoreMessage(prediction), prediction)
    else
      ServerError
  }

  /** The steps of the gauge. */
  const GaugeSteps: seq<Band> := [
    Band(0.0, 19.5, "#f13c0b"),
    Band(19.5, 20.5, "#fffef5"),
    Band(20.5, 39.5, "#fe7900"),
    Band(39.5, 40.5, "#fffef5"),
    Band(40.5, 59.5, "#ffcf15"),
    Band(59.5, 60.5, "#fffef5"),
    Band(60.5, 79.5, "#88c817"),
    Band(79.5, 80.5, "#fffef5"),
    Band(80.5, 100.0, "#01bf11")
  ]

  /** Nine bands tiling `[0, 100]`, the tier colours alternating with dividers one
      point wide centred on 20, 40, 60 and 80. */
  lemma GaugeStepsShape()
    ensures GaugeShape(GaugeSteps, 100.0)
  {
    GaugeStepsTiling();
    GaugeStepsColours();
    GaugeStepsDividers();
  }

  lemma GaugeStepsTiling()
    ensures Contiguous(GaugeSteps, 0.0, 100.0) && NonEmptyBands(GaugeSteps)
  {
  }

  lemma GaugeStepsColours()
    ensures forall k | 0 <= k < 5 :: GaugeSteps[2 * k].color == TierColors[k]
  {
  }

  lemma GaugeStepsDividers()
    ensures forall k | 0 <= k < 4 :: DividerAt(GaugeSteps[2 * k + 1], TierBounds[k] * 100.0 / 100.0, 100.0 / 100.0)
  {
    assert DividerAt(GaugeSteps[1], 20.0, 1.0);
    assert DividerAt(GaugeSteps[3], 40.0, 1.0);
    assert DividerAt(GaugeSteps[5], 60.0, 1.0);
    assert DividerAt(GaugeSteps[7], 80.0, 1.0);
  }

  /** The marker of a successful answer lies on some step of the gauge exactly when
      the probability is within `[0, 1]`. */
  lemma MarkerOnGauge(status: int, raw: real)
    requires status == 200
    ensures var g := ShowPrediction(status, raw).gauge;
            (exists i | 0 <= i < |GaugeSteps| :: GaugeSteps[i].lo <= g <= GaugeSteps[i].hi) <==> 0.0 <= raw <= 1.0
  {
    GaugeStepsShape();
    OnSomeStep(GaugeSteps, 100.0, ShowPrediction(status, raw).gauge);
  }

  /** Wherever the marker falls on a coloured band, that band's colour is the colour
      of the tier whose message is shown. */
  lemma GaugeColourMatchesMessage(prediction: real, k: nat)
    requires k < 5 && GaugeSteps[2 * k].lo <= prediction <= GaugeSteps[2 * k].hi
    ensures GaugeSteps[2 * k].color == TierColors[TierRank(TierOf(prediction))]
    ensures ScoreMessage(prediction) == TierMessage(Tiers[k])
  {
    GaugeStepsShape();
    ColourBandTier(GaugeSteps, k, prediction);
    ScoreMessageAgrees(prediction);
  }

  // ---------------------------------------------------------------------------
  // The dashboard panel (Dashboardneo.py:196-254)
  // ---------------------------------------------------------------------------

  /** `int(abs(d) / 30)`: true division, then truncation. */
  function PhoneChangeMonths(daysLastPhoneChange: int): int {
    var d := if daysLastPhoneChange < 0 then -daysLastPhoneChange else daysLastPhoneChange;
    TruncToInt(d as real / 30.0)
  }

  /** Whole months of thirty days, whichever the sign of the offset. */
  lemma PhoneChangeMonthsIsDiv(d: int)
    ensures PhoneChangeMonths(d) >= 0
    ensures PhoneChangeMonths(d) == (if d < 0 then -d else d) / 30
    ensures PhoneChangeMonths(-d) == PhoneChangeMonths(d)
  {
    var a := if d < 0 then -d else d;
    var q := a / 30;
    assert q as real <= a as real / 30.0 < q as real + 1.0;
  }

  lemma PhoneChangeExamples()
    ensures PhoneChangeMonths(-91) == 3 && PhoneChangeMonths(-29) == 0 && PhoneChangeMonths(-30) == 1
  {
    PhoneChangeMonthsIsDiv(-91);
    PhoneChangeMonthsIsDiv(-29);
    PhoneChangeMonthsIsDiv(-30);
  }

  /** The selected client's row, after missing values have been dropped. */
  datatype ClientRow = ClientRow(
    daysBirth: int, daysIdPublish: int, regCityNotLiveCity: int, orgType: string,
    gender: string, ownsCar: string, ownsRealty: string, income: real,
    incomeType: string, educationType: string, familyStatus: string,
    housingType: string, credit: real, daysLastPhoneChange: int)

  /** The first column of the panel's top row. */
  function ClientColumn(row: ClientRow): seq<Metric> {
    [
      Metric("Client Age", AnonymizeBirth(row.daysBirth)),
      Metric("Gender", GenderDisplay(row.gender)),
      Metric("Job Field", CategorizeOrgType(row.orgType))
    ]
  }

  /** The third column of the panel's top row (the gauge is the second). */
  function IncomeColumn(row: ClientRow): seq<Metric> {
    [
      Metric("Income Total", CategorizeIncome(row.income)),
      Metric("Education Type", FirstSegment(row.educationType)),
      Metric("Income Type", FirstSegment(row.incomeType))
    ]
  }

  /** The four columns of the panel's bottom row. */
  function HouseholdColumn(row: ClientRow): seq<Metric> {
    [
      Metric("Family Status", FirstSegment(row.familyStatus)),
      Metric("Housing Type", FirstSegment(row.housingType))
    ]
  }

  function AddressColumn(row: ClientRow): seq<Metric> {
    [
      Metric("Permanent adress = Contact adress", CityDisplay(row.regCityNotLiveCity)),
      Metric("Time Between Receiving ID and Loan Request", CategorizePublishDays(row.daysIdPublish))
    ]
  }

  function PropertyColumn(row: ClientRow): seq<Metric> {
    [
      Metric("Owns a Car", FlagDisplay(row.ownsCar)),
      Metric("Owns Real Estate", FlagDisplay(row.ownsRealty))
    ]
  }

  function CreditColumn(row: ClientRow): seq<Metric> {
    [
      Metric("Total Credit Amount", CreditDisplay(row.credit)),
      Metric("Months Since Last Phone Change", IntToString(PhoneChangeMonths(row.daysLastPhoneChange)))
    ]
  }

  /** The metric columns of the panel, left to right and top to bottom. */
  function Panel(row: ClientRow): seq<seq<Metric>> {
    [ClientColumn(row), IncomeColumn(row), HouseholdColumn(row), AddressColumn(row),
     PropertyColumn(row), CreditColumn(row)]
  }

  /** The age and the job field shown are the reference labels. */
  lemma ClientColumnAgrees(row: ClientRow)
    ensures var c := ClientColumn(row);
            && c[0].value == DecadeLabel(AgeDecade(AgeInYears(row.daysBirth)))
            && (c[1].value == "Male" || c[1].value == "Female")
            && (c[1].value == "Male" <==> row.gender == "M")
            && c[2].value == CategoryName(OrgCategory(row.orgType))
  {
    AnonymizeBirthAgrees(row.daysBirth);
    CategorizeOrgTypeAgrees(row.orgType);
  }

  /** The income bracket is the reference label; the free-text fields show their
      part before the first '/': a prefix with no '/', followed in the field by a
      '/' when there is one, and the whole field when there is none. */
  lemma IncomeColumnAgrees(row: ClientRow)
    ensures var c := IncomeColumn(row);
            && c[0].value == IncomeLabel(row.income)
            && '/' !in c[1].value && StartsWith(row.educationType, c[1].value)
            && ('/' !in row.educationType ==> c[1].value == row.educationType)
            && ('/' in row.educationType ==> row.educationType[|c[1].value|] == '/')
            && '/' !in c[2].value && StartsWith(row.incomeType, c[2].value)
            && ('/' !in row.incomeType ==> c[2].value == row.incomeType)
            && ('/' in row.incomeType ==> row.incomeType[|c[2].value|] == '/')
  {
    CategorizeIncomeAgrees(row.income);
  }

  /** The tenure shown is the reference label. */
  lemma AddressColumnAgrees(row: ClientRow)
    ensures AddressColumn(row)[1].value == TenureLabel(row.daysIdPublish)
  {
    CategorizePublishDaysAgrees(row.daysIdPublish);
  }

  /** The phone metric is the number of whole thirty-day months in decimal. */
  lemma CreditColumnAgrees(row: ClientRow)
    ensures var d := row.daysLastPhoneChange;
            CreditColumn(row)[1].value == NatToString((if d < 0 then -d else d) / 30)
  {
    PhoneChangeMonthsIsDiv(row.daysLastPhoneChange);
  }

  // ---------------------------------------------------------------------------
  // The manual-entry request (Dashboardneo.py:263-310)
  // ---------------------------------------------------------------------------

  /** The payload sent for the manual-entry form. */
  function ClientData(f: FormInput): map<string, Json>
    requires FormChoicesValid(f)
  {
    map[
      "CODE_GENDER" := JStr(GenderCodes[f.gender]),
      "FLAG_OWN_CAR" := JStr(FlagCodes[f.ownsCar]),
      "ORGANIZATION_TYPE" := JStr(f.orgType),
      "DAYS_BIRTH" := JInt(-f.daysBirth),
      "DAYS_ID_PUBLISH" := JInt(f.daysIdPublish),
      "SK_ID_CURR" := JInt(f.clientId),
      "REG_CITY_NOT_LIVE_CITY" := JInt(CityCodes[f.sameAddress]),
      "EXT_SOURCE_1" := JReal(f.extSource1),
      "EXT_SOURCE_2" := JReal(f.extSource2),
      "EXT_SOURCE_3" := JReal(f.extSource3),
      "YEARS_BEGINEXPLUATATION_MODE" := JReal(f.yearsBeginExpluatation),
      "COMMONAREA_MODE" := JReal(f.commonArea),
      "FLOORSMAX_MODE" := JReal(f.floorsMax),
      "LIVINGAPARTMENTS_MODE" := JReal(f.livingApartments),
      "YEARS_BUILD_MEDI" := JReal(f.yearsBuild)
    ]
  }

  /** The payload's keys are exactly the wire fields. */
  lemma ClientDataKeys(f: FormInput)
    requires FormChoicesValid(f)
    ensures forall i | 0 <= i < |PredictionColumns| :: PredictionColumns[i] in ClientData(f)
    ensures forall k | k in ClientData(f) :: k in PredictionColumns
  {
  }

  /** A birth `daysBirth >= 0` days ago goes out as a non-positive offset whose age
      label, read back as a loaded record, is the decade of `daysBirth / 365` whole
      years. */
  lemma ClientDataAge(f: FormInput)
    requires FormChoicesValid(f)
    ensures var birth := ClientData(f)["DAYS_BIRTH"];
            && birth.JInt?
            && (f.daysBirth >= 0 ==>
                  birth.i <= 0 && AnonymizeBirth(birth.i) == DecadeLabel(AgeDecade(f.daysBirth / 365)))
  {
    assert ClientData(f)["DAYS_BIRTH"] == JInt(-f.daysBirth);
    AnonymizeBirthAgrees(-f.daysBirth);
  }

  /** An ID document entered as issued `d >= 0` days ago goes out as entered, so the
      record it makes is bucketed as issued less than a year ago however large `d`
      is. */
  lemma ClientDataTenure(f: FormInput)
    requires FormChoicesValid(f)
    ensures var id := ClientData(f)["DAYS_ID_PUBLISH"];
            id.JInt? && (f.daysIdPublish >= 0 ==> TenureLabel(id.i) == "< 1 year")
  {
    assert ClientData(f)["DAYS_ID_PUBLISH"] == JInt(f.daysIdPublish);
  }

  /** Each choice goes out as a code the panel shows back as that choice. */
  lemma ClientDataCodes(f: FormInput)
    requires FormChoicesValid(f)
    ensures var g := ClientData(f)["CODE_GENDER"]; g.JStr? && GenderDisplay(g.s) == f.gender
    ensures var c := ClientData(f)["FLAG_OWN_CAR"]; c.JStr? && FlagDisplay(c.s) == f.ownsCar
    ensures var a := ClientData(f)["REG_CITY_NOT_LIVE_CITY"]; a.JInt? && CityDisplay(a.i) == f.sameAddress
  {
    assert ClientData(f)["CODE_GENDER"] == JStr(GenderCodes[f.gender]);
    assert ClientData(f)["FLAG_OWN_CAR"] == JStr(FlagCodes[f.ownsCar]);
    assert ClientData(f)["REG_CITY_NOT_LIVE_CITY"] == JInt(CityCodes[f.sameAddress]);
    DisplayInvertsForm(f.gender);
    DisplayInvertsForm(f.ownsCar);
    DisplayInvertsForm(f.sameAddress);
  }

  // ---------------------------------------------------------------------------
  // The record-lookup request (Dashboardneo.py:119-133)
  // ---------------------------------------------------------------------------

  /** The payload sent for the selected client of a loaded file: the wire columns of
      its row. */
  function RowPayload(row: map<string, Json>): map<string, Json>
    requires forall i | 0 <= i < |PredictionColumns| :: PredictionColumns[i] in row
  {
    SelectColumns(row, PredictionColumns)
  }

  /** Both entry paths send the same fifteen fields: the record's payload has exactly
      the keys of the manual-entry payload. */
  lemma RowPayloadMatchesForm(row: map<string, Json>, f: FormInput)
    requires forall i | 0 <= i < |PredictionColumns| :: PredictionColumns[i] in row
    requires FormChoicesValid(f)
    ensures RowPayload(row).Keys == ClientData(f).Keys
    ensures |RowPayload(row).Keys| == 15
  {
    ClientDataKeys(f);
    PredictionColumnsDistinct();
    DistinctNamesCount(PredictionColumns);
    assert forall k :: k in RowPayload(row).Keys <==> k in Names(PredictionColumns);
  }
}
