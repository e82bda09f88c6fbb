# Loan eligibility dashboard: rule layer in Dafny

The repository is a Streamlit front end for a loan-scoring service. It has three
pages:

- **Dashboardneo.py** — a two-page dashboard:
  - `main_page` loads a CSV of clients and sends the selected client's row to the scoring service.
  - `new_page` builds the request from a manual-entry form.
- **Main.py** — a single-page dashboard with the same CSV path as `main_page`.
- **dashboard.py** — a single manual-entry page with an unscaled gauge.

After a successful call, Dashboardneo.py and Main.py show the score as a percentage, a tier message and a gauge on `[0, 100]`, and their CSV pages a panel of anonymised client metrics. dashboard.py shows only the raw probability and a gauge on `[0, 1]`, with no tier message.

This project models the rule layer those pages share. The three modules below collect the logic that every page uses:

- **`FeatureRules`** — the four feature bucketizers:
  - age decade;
  - time since the ID document was issued;
  - organisation category;
  - income bracket.
- **`ScoreRules`** — scoring:
  - percentage scaling;
  - the five advisory tiers and their messages;
  - the shape of the coloured gauge.
- **`RequestRules`** — the payload sent to the scoring service:
  - the JSON value type;
  - the form's lookup tables, and how the panel shows the codes back;
  - Python's `int(x)` truncation;
  - the `f"${n:,}"` credit format.

The bucketizers are written table-driven: a threshold table with a count, or a rule table with a first match.

Each page has its own module, which restates that page's own if/elif cascades and literal tables as written:

- `DashboardNeo`;
- `MainPage`;
- `LegacyDashboard`.

Each page's module proves its cascades and tables equal the shared definitions. It also proves how its payload and gauge relate to those of the other pages.

Two helper modules support the rest:

- **`Text`** — the Python string built-ins the pages use:
  - `sub in s`;
  - `s.split('/')[0]`;
  - `str(n)`;
  - the `:,` thousands separator (PEP 378).
- **`Thresholds`** — counting how many bounds of a table a value has reached or exceeded, with monotonicity and a "lies between two bounds" lemma.

## Behaviour of the code worth knowing

**Within each page**
- **Age conversion.** `anonymize_birth` is total. For a birth day offset `>= 0` it still returns a label, for example `"0s"`, or `"-10s"` by floor division. The model keeps this. The label is shown to be digits plus "s" only for `daysBirth <= 0` (`FeatureRules.PastBirthLabel`).
- **Probability range.** No page checks that the probability lies in `[0, 1]`. The percentage is shown for any value, and the tier cascade takes any real. The marker lies on some step of the gauge exactly when the probability is in `[0, 1]` (`DashboardNeo.MarkerOnGauge`, `LegacyDashboard.MarkerOnGauge`).
- **Gauge tables.** Main.py:175-185 spans `[0, 100]`, the same table as Dashboardneo.py:172-182 (`MainPage.GaugeStepsSame`). Only dashboard.py:85-95 uses a `[0, 1]` table, each bound divided by 100 (`LegacyDashboard.GaugeStepsScaled`).

**Between the pages**
- **ID-document offset sign.**
  - The manual-entry dashboards disagree on the sign of the "days ago" ID-document offset.
  - dashboard.py:53 sends it negated, matching `DAYS_BIRTH` and the CSV convention.
  - Dashboardneo.py:299 sends it as entered.
  - `LegacyDashboard.ClientDataVersusNeo` proves the two payloads agree on every other field, and on this field only when the offset is 0.
  - Read back through the tenure buckets, dashboard.py's record is bucketed by how long ago the document was issued (`LegacyDashboard.ClientDataTenure`). Dashboardneo.py's is "< 1 year" for every `d >= 0` (`DashboardNeo.ClientDataTenure`). The two pages give the same bucket exactly when `d <= 365` (`LegacyDashboard.TenureVersusNeo`).
- **Address flag.**
  - The form sends `REG_CITY_NOT_LIVE_CITY = 1` when the answer to "permanent address the same as contact address?" is "Yes" (Dashboardneo.py:283, dashboard.py:37).
  - The panel shows "Permanent adress = Contact adress: Yes" exactly when the flag is 1 (Dashboardneo.py:243).
  - The two agree with each other (`RequestRules.DisplayInvertsForm`, `DashboardNeo.ClientDataCodes`). Both read the flag the opposite way to its column name, under which 1 means the two cities differ. The model keeps the code's reading.
- **Main.py's panel.**
  - The metric "Housing Type" appears three times: Main.py:256, 258 and 269.
  - At two of those positions Dashboardneo.py shows the address flag and the months since the last phone change.
  - Main.py does not load `DAYS_LAST_PHONE_CHANGE`.
  - Both pages are modelled as written. `MainPage.PanelVersusNeo` states that for the same client the two panels agree everywhere except at those two places, which repeat the housing-type metric.

## Model

| member | source | states |
|---|---|---|
| Text.Contains | Dashboardneo.py:49-62 | `sub in s` on strings: `sub` occurs at some position of `s`, so it is no longer than `s` (its scan stated by ContainsStep) |
| Text.ContainsStep | Dashboardneo.py:49-62 | `sub in s` holds exactly when `s` starts with `sub` or `sub` is in the rest of `s`, both directions |
| Text.ContainsHasChars | Dashboardneo.py:49-62 | every character of a contained fragment is a character of the string |
| Text.MissingCharNotContained | Dashboardneo.py:49-62 | a string lacking one character of a fragment does not contain the fragment |
| Text.FirstSegment | Dashboardneo.py:233-241 | `s.split('/')[0]` is a prefix of `s` without '/'; it is all of `s` when `s` has no '/', and otherwise is followed by a '/' |
| Text.NatToString | Dashboardneo.py:16 | `str(n)` has at least one digit, only digits, a leading '0' only for 0, and at most one, two or three digits below 10, 100 or 1000 |
| Text.IntToString | Dashboardneo.py:16 | `str(i)` is digits that read back as `i` for `i >= 0`, and '-' before digits that read back as `-i` for `i < 0` |
| Text.ParseNatToString | Dashboardneo.py:16 | reading the decimal notation back gives the number |
| Text.NatToStringInjective | Dashboardneo.py:16 | distinct numbers have distinct notations |
| Text.Pad3 | Dashboardneo.py:252 | a three-digit group below 1000 has exactly three digits |
| Text.RemoveCommas | Dashboardneo.py:252 | the result has no comma |
| Text.RemoveCommasAppend | Dashboardneo.py:252 | removing commas distributes over concatenation |
| Text.RemoveCommasOfDigits | Dashboardneo.py:252 | a digit string has no comma to remove |
| Text.NatToStringSplit | Dashboardneo.py:252 | a number of four or more digits is its thousands' digits followed by the three-digit group of `n % 1000` |
| Text.GroupThousands | Dashboardneo.py:252 | `f"{n:,}"` for `n >= 0`: the digits of `n` with a comma before each group of three from the right (meaning stated by GroupThousandsGrouped, GroupThousandsDigits, GroupThousandsFirst) |
| Text.IntWithCommas | Dashboardneo.py:252 | `f"{i:,}"` for any integer: a '-' before the grouped magnitude of a negative one |
| Text.GroupThousandsGrouped | Dashboardneo.py:252 | `f"{n:,}"` is a first group of one to three digits followed by comma-separated groups of exactly three |
| Text.GroupThousandsDigits | Dashboardneo.py:252 | removing the commas from `f"{n:,}"` gives `str(n)` |
| Text.GroupThousandsFirst | Dashboardneo.py:252 | `f"{n:,}"` starts with the first digit of `str(n)` |
| Thresholds.CountReached | Dashboardneo.py:88-100 | the number of bounds reached is at most the number of bounds |
| Thresholds.CountReachedMonotone | Dashboardneo.py:88-100 | a larger value never reaches fewer bounds |
| Thresholds.CountReachedIsGap | Dashboardneo.py:88-100 | on an ascending table the count is `k` exactly when the value lies from bound `k-1` (inclusive) to bound `k` (exclusive) |
| Thresholds.ReachedNoneBelowFirst | Dashboardneo.py:88-100 | a value below the first bound reaches none |
| Thresholds.CountExceeded | Dashboardneo.py:18-26 | the number of bounds a value lies strictly below is at most the number of bounds |
| Thresholds.CountExceededAntitone | Dashboardneo.py:18-26 | a larger (less negative) offset lies strictly below no more bounds |
| FeatureRules.AgeInYears | Dashboardneo.py:15 | `-days_birth // 365`: the whole years `age` with `365 * age <= -days_birth < 365 * (age + 1)`, floor division for either sign |
| FeatureRules.AgeDecade | Dashboardneo.py:14-16 | `(age // 10) * 10` is a multiple of ten with the age in `[decade, decade + 10)` |
| FeatureRules.DecadeUnique | Dashboardneo.py:14-16 | an age lies in exactly one such decade |
| FeatureRules.LastDigit | Dashboardneo.py:16 | the last character of `str(n)` is the digit `n % 10` |
| FeatureRules.DecadeLabelEndsInZeroS | Dashboardneo.py:14-16 | the label of any decade, negative ones included, ends in "0s" |
| FeatureRules.PastBirthLabel | Dashboardneo.py:14-16 | for a birth in the past the label is digits then 's', the digits reading back as a multiple of ten at most the age and less than ten below it |
| FeatureRules.DecadeLabel | Dashboardneo.py:16 | the label `f"{decade}s"` (its shape stated by DecadeLabelEndsInZeroS and PastBirthLabel) |
| FeatureRules.TenureRank | Dashboardneo.py:18-26 | the seniority index names one of the four buckets |
| FeatureRules.TenureMonotone | Dashboardneo.py:18-26 | an older ID document never gets a less senior bucket |
| FeatureRules.TenureBoundaries | Dashboardneo.py:19-25 | -3650, -1825 and -365 themselves fall into the next less senior bucket, one day earlier into the more senior one (strict `<`) |
| FeatureRules.TenureRecent | Dashboardneo.py:24-25 | any offset from -365 up, future dates included, is "< 1 year" |
| FeatureRules.TenureLabel | Dashboardneo.py:18-26 | the bucket name at the seniority index, the number of thresholds -365, -1825, -3650 the offset lies strictly below (meaning stated by TenureMonotone, TenureBoundaries) |
| FeatureRules.FirstMatchFrom | Dashboardneo.py:27-86 | the search's result lies between the start and the end of the rule table |
| FeatureRules.FirstMatchFromIsFirst | Dashboardneo.py:27-86 | the rule found matches, and no earlier rule from the start does |
| FeatureRules.FirstMatchFromIff | Dashboardneo.py:27-86 | first match wins in both directions: the search stops at `k` exactly when `k` is the first matching rule (or the end) |
| FeatureRules.OrgCategory | Dashboardneo.py:27-86 | the category of the first matching rule of the table, Other when none matches (stated by FirstMatchFromIff and OrgCategoryOther) |
| FeatureRules.CategoryName | Dashboardneo.py:27-86 | the label returned for each category, `'Education'` … `'Other'` (no two alike, by CategoryNameInjective) |
| FeatureRules.CategoryNameInjective | Dashboardneo.py:27-86 | distinct categories have distinct labels |
| FeatureRules.RuleCategoriesDistinct | Dashboardneo.py:27-86 | each category but Other comes from exactly one rule |
| FeatureRules.OrgCategoryOther | Dashboardneo.py:85-86 | the category is Other exactly when no rule matches |
| FeatureRules.EarlyNamesExcluded | Dashboardneo.py:29-46 | no exact name of the first five rules contains ':' or 'W' |
| FeatureRules.TradeIsRetail | Dashboardneo.py:49-50 | every type containing "Trade: type" is Retail |
| FeatureRules.TransportIsLogistics | Dashboardneo.py:53-54 | every other type containing "Transport: type" is Logistics |
| FeatureRules.WaterAndWasteAreUtilities | Dashboardneo.py:57-58 | every remaining type containing "Water Supply" or "Waste Management" is Utilities |
| FeatureRules.IndustryTypeIsIndustry | Dashboardneo.py:61-62 | every remaining type containing "Industry: type" is Industry |
| FeatureRules.UnlistedPassesEarlyRules | Dashboardneo.py:29-54 | a type that is no listed name and lacks ':' and 'W' passes the first seven rules |
| FeatureRules.UnlistedIsOther | Dashboardneo.py:27-86 | such a type is Other |
| FeatureRules.PlainChoicesAreOther | Dashboardneo.py:264-275 | the form choices "XNA", "Housing" and "Other" are Other |
| FeatureRules.BusinessEntityTypesAreOther | Dashboardneo.py:264-275 | the form choices "Business Entity Type 1" to "3" are Other |
| FeatureRules.IncomeBracket | Dashboardneo.py:88-100 | the bracket index names one of the six labels |
| FeatureRules.IncomeMonotone | Dashboardneo.py:88-100 | a larger income never gets a lower bracket |
| FeatureRules.IncomeBracketRange | Dashboardneo.py:88-100 | bracket `k` holds exactly the incomes from its lower bound (inclusive) to the next (exclusive), both directions |
| FeatureRules.IncomeBoundaries | Dashboardneo.py:89-99 | 99999.99 is "<$100,000", 100000 the next bracket, 499999.99 "$400,000 - $499,999", 500000 "$500,000+" |
| FeatureRules.IncomeLabel | Dashboardneo.py:88-100 | the label of the bracket the income falls in (stated by IncomeBracketRange) |
| ScoreRules.Percent | Dashboardneo.py:139 | scaling by 100 keeps the sign, maps `[0, 1]` into `[0, 100]` and increases a positive value |
| ScoreRules.PercentStrictlyMonotone | Dashboardneo.py:139 | a larger probability gives a larger percentage |
| ScoreRules.TierRank | Dashboardneo.py:140-149 | each tier has its position in the order from lowest to highest |
| ScoreRules.TierOf | Dashboardneo.py:140-149 | the tier given lies from its own bound (inclusive) to the next tier's bound (exclusive) |
| ScoreRules.TierOfIff | Dashboardneo.py:140-149 | a percentage is given tier `t` exactly when it lies from `t`'s bound (inclusive) to the next tier's (exclusive) |
| ScoreRules.TierMonotone | Dashboardneo.py:140-149 | a larger percentage never gets a lower tier |
| ScoreRules.TierBoundaries | Dashboardneo.py:140-149 | 80, 60, 40, 20 are in the higher tier and 79.99, 59.99, 39.99, 19.99 in the lower; 0.427 shows as Moderate |
| ScoreRules.TierMessage | Dashboardneo.py:141-149 | the advisory message of each tier, word for word (no two alike, by TierMessageInjective) |
| ScoreRules.TierMessageInjective | Dashboardneo.py:141-149 | the message shown identifies the tier |
| ScoreRules.ContiguousCovers | Dashboardneo.py:172-182 | every point of a contiguous, non-reversed band table lies in some band |
| ScoreRules.ContiguousWithin | Dashboardneo.py:172-182 | every band of such a table lies within its range |
| ScoreRules.OnSomeStep | Dashboardneo.py:172-182 | on a gauge of the pages' shape a value lies on some step exactly when it is within the gauge's range |
| ScoreRules.ColourBandTier | Dashboardneo.py:172-182 | on a gauge of the pages' shape, every percentage on the `k`-th coloured band is in the `k`-th tier |
| RequestRules.DistinctConcat | Dashboardneo.py:115 | two duplicate-free disjoint column lists concatenate to a duplicate-free list |
| RequestRules.DistinctNamesCount | Dashboardneo.py:103-107 | a duplicate-free column list names as many distinct columns as it is long |
| RequestRules.SelectColumns | Dashboardneo.py:128-133 | the record sent for a row has as keys exactly the names of the listed columns (see DistinctNamesCount, DashboardNeo.RowPayloadMatchesForm) |
| RequestRules.GenderCodes | Dashboardneo.py:263 | the gender select box's code table, "Male" to "M" and "Female" to "F" (total and injective by FormCodesTotalAndInjective) |
| RequestRules.FlagCodes | Dashboardneo.py:264 | the car select box's code table, "Yes" to "Y" and "No" to "N" |
| RequestRules.CityCodes | Dashboardneo.py:283 | the address select box's code table, "Yes" to 1 and "No" to 0 |
| RequestRules.FormCodesTotalAndInjective | dashboard.py:12-37 | each form lookup table is defined on exactly its select box's choices and sends them to distinct codes |
| RequestRules.GenderDisplay | Dashboardneo.py:208 | the panel shows "Male" exactly for code "M", otherwise "Female" |
| RequestRules.FlagDisplay | Dashboardneo.py:247-249 | the panel shows "Yes" exactly for code "Y", otherwise "No" |
| RequestRules.CityDisplay | Dashboardneo.py:243 | the panel shows "Yes" exactly for flag 1, otherwise "No" |
| RequestRules.DisplayInvertsForm | Dashboardneo.py:263-283 | showing the code a form choice produced gives back that choice |
| RequestRules.TruncToInt | Dashboardneo.py:252 | `int(x)` is the floor for `x >= 0` and the ceiling below, keeps the sign, and is 0 strictly between -1 and 1 |
| RequestRules.TruncTowardZero | Dashboardneo.py:200 | truncation never moves away from zero and commutes with negation |
| RequestRules.CreditDisplayShape | Dashboardneo.py:252 | a non-negative credit shows as '$' then well-grouped digits spelling its whole-dollar part, with no leading zero unless it is 0 |
| RequestRules.CreditDisplay | Dashboardneo.py:252 | `f"${int(amount):,}"`: a dollar sign before the truncated amount with thousands separators (shape stated by CreditDisplayShape) |
| DashboardNeo.AnonymizeBirthAgrees | Dashboardneo.py:14-16 | `anonymize_birth` gives the label of the decade of the age in whole years |
| DashboardNeo.CategorizePublishDaysAgrees | Dashboardneo.py:18-26 | the tenure cascade gives the reference bucket |
| DashboardNeo.ExactRuleConditions | Dashboardneo.py:29-46 | each of the first five branch conditions holds exactly when the matching table rule matches |
| DashboardNeo.FragmentRuleConditions | Dashboardneo.py:49-62 | each substring branch condition holds exactly when the matching table rule matches |
| DashboardNeo.LateRuleConditions | Dashboardneo.py:65-82 | each of the last five branch conditions holds exactly when the matching table rule matches |
| DashboardNeo.AnonymizeBirth | Dashboardneo.py:14-16 | `anonymize_birth` as written (equal to the reference by AnonymizeBirthAgrees) |
| DashboardNeo.CategorizePublishDays | Dashboardneo.py:18-26 | `categorize_publish_days` as written (equal to the reference by CategorizePublishDaysAgrees) |
| DashboardNeo.CategorizeOrgType | Dashboardneo.py:27-86 | `categorize_org_type` as written (equal to the reference by CategorizeOrgTypeAgrees) |
| DashboardNeo.CategorizeIncome | Dashboardneo.py:88-100 | `categorize_income` as written (equal to the reference by CategorizeIncomeAgrees) |
| DashboardNeo.CategorizeOrgTypeAgrees | Dashboardneo.py:27-86 | the organisation cascade gives the label of the reference category for every string |
| DashboardNeo.CategorizeIncomeAgrees | Dashboardneo.py:88-100 | the income cascade gives the reference bracket |
| DashboardNeo.PredictionColumns | Dashboardneo.py:103-108 | the fifteen columns sent to the scoring service, in the source's order (distinct by PredictionColumnsDistinct) |
| DashboardNeo.InfoColumns | Dashboardneo.py:109-112 | the eight display-only columns, `DAYS_LAST_PHONE_CHANGE` last (distinct by InfoColumnsDistinct) |
| DashboardNeo.ColumnsToLoad | Dashboardneo.py:115 | the two lists concatenated, 23 distinct columns (by ColumnListsWellFormed) |
| DashboardNeo.ColumnListsWellFormed | Dashboardneo.py:103-115 | 15 distinct wire columns, 8 distinct display columns, none shared, 23 distinct columns loaded |
| DashboardNeo.PredictionColumnsDistinct | Dashboardneo.py:103-107 | no wire column is listed twice |
| DashboardNeo.InfoColumnsDistinct | Dashboardneo.py:109-113 | no display column is listed twice |
| DashboardNeo.ColumnListsDisjoint | Dashboardneo.py:103-113 | no column is in both lists |
| DashboardNeo.ScoreMessage | Dashboardneo.py:140-149 | the advisory-message cascade as written (the tier's message by ScoreMessageAgrees) |
| DashboardNeo.ScoreMessageAgrees | Dashboardneo.py:140-149 | the message cascade shows the tier message of the percentage (the same cascade is at Dashboardneo.py:319-328) |
| DashboardNeo.ShowPrediction | Dashboardneo.py:138-193 | status 200 exactly gives a score: the percentage, its tier message and a gauge at the percentage; anything else the failure banner (likewise Dashboardneo.py:316-368) |
| DashboardNeo.GaugeStepsShape | Dashboardneo.py:172-182 | the steps tile `[0, 100]` in nine bands, the tier colours alternating with one-point dividers centred on 20, 40, 60, 80 (same steps at Dashboardneo.py:344-353) |
| DashboardNeo.GaugeStepsTiling | Dashboardneo.py:172-182 | the steps are contiguous from 0 to 100 and none is reversed |
| DashboardNeo.GaugeStepsColours | Dashboardneo.py:172-182 | the even steps carry the five tier colours in order |
| DashboardNeo.GaugeStepsDividers | Dashboardneo.py:173-181 | the odd steps are neutral dividers one point wide centred on the tier bounds |
| DashboardNeo.GaugeSteps | Dashboardneo.py:172-182 | the gauge's step table (its shape stated by GaugeStepsShape) |
| DashboardNeo.MarkerOnGauge | Dashboardneo.py:161-190 | for a successful answer the marker lies on some step of the gauge exactly when the probability is within `[0, 1]` |
| DashboardNeo.GaugeColourMatchesMessage | Dashboardneo.py:140-182 | the colour under the marker is the colour of the tier whose message is shown |
| DashboardNeo.PhoneChangeMonthsIsDiv | Dashboardneo.py:200 | `int(abs(d) / 30)` is the non-negative whole number of thirty-day months, the same for `d` and `-d` |
| DashboardNeo.PhoneChangeExamples | Dashboardneo.py:200 | -91 days is 3 months, -29 days 0, -30 days 1 |
| DashboardNeo.PhoneChangeMonths | Dashboardneo.py:200 | `int(abs(d) / 30)` (meaning stated by PhoneChangeMonthsIsDiv) |
| DashboardNeo.ClientColumn | Dashboardneo.py:205-210 | the age, gender and job-field metrics (stated by ClientColumnAgrees) |
| DashboardNeo.IncomeColumn | Dashboardneo.py:230-235 | the income, education and income-type metrics (stated by IncomeColumnAgrees) |
| DashboardNeo.HouseholdColumn | Dashboardneo.py:238-241 | the family-status and housing-type metrics, each cut at the first '/' |
| DashboardNeo.AddressColumn | Dashboardneo.py:242-245 | the address-flag and tenure metrics (stated by AddressColumnAgrees) |
| DashboardNeo.PropertyColumn | Dashboardneo.py:246-249 | the car and real-estate flags shown as Yes or No |
| DashboardNeo.CreditColumn | Dashboardneo.py:251-254 | the credit and phone-change metrics (stated by CreditColumnAgrees) |
| DashboardNeo.Panel | Dashboardneo.py:203-254 | the six metric columns, left to right and top to bottom |
| DashboardNeo.ClientColumnAgrees | Dashboardneo.py:204-210 | the panel shows the reference age label, "Male" exactly for the code "M" (else "Female") and the reference job category |
| DashboardNeo.IncomeColumnAgrees | Dashboardneo.py:229-235 | the reference income bracket, and the education and income types cut at the first '/': a '/'-free prefix that is the whole field when it has no '/' and is followed by the field's first '/' otherwise |
| DashboardNeo.AddressColumnAgrees | Dashboardneo.py:243-245 | the tenure shown is the reference bucket |
| DashboardNeo.CreditColumnAgrees | Dashboardneo.py:252-254 | the phone metric (computed at line 200) is the decimal number of whole thirty-day months |
| DashboardNeo.ClientDataKeys | Dashboardneo.py:294-310 | the form payload's keys are exactly the fifteen wire columns |
| DashboardNeo.ClientData | Dashboardneo.py:294-310 | the manual-entry payload (keys by ClientDataKeys, meaning by ClientDataAge, ClientDataTenure, ClientDataCodes) |
| DashboardNeo.ClientDataAge | Dashboardneo.py:276-298 | a birth `daysBirth >= 0` days ago goes out non-positive, and its age label read back is the decade of `daysBirth / 365` whole years |
| DashboardNeo.ClientDataTenure | Dashboardneo.py:281-299 | an ID document entered as issued `d >= 0` days ago goes out as entered, so it is bucketed "< 1 year" however large `d` is |
| DashboardNeo.ClientDataCodes | Dashboardneo.py:263-310 | each choice goes out as a code the panel shows back as that choice |
| DashboardNeo.RowPayload | Dashboardneo.py:128-133 | the record sent for the selected client: the wire columns of its row |
| DashboardNeo.RowPayloadMatchesForm | Dashboardneo.py:128-133 | the record-lookup payload has exactly the keys of the manual-entry payload (Dashboardneo.py:294-310), fifteen of them |
| MainPage.AnonymizeBirthSame | Main.py:7-9 | this page's age bucketizer equals the two-page dashboard's |
| MainPage.CategorizePublishDaysSame | Main.py:11-19 | this page's tenure bucketizer equals the two-page dashboard's |
| MainPage.CategorizeOrgTypeSame | Main.py:20-79 | this page's organisation bucketizer equals the two-page dashboard's |
| MainPage.CategorizeIncomeSame | Main.py:80-92 | this page's income bucketizer equals the two-page dashboard's |
| MainPage.AnonymizeBirth | Main.py:7-9 | this page's `anonymize_birth` as written |
| MainPage.CategorizePublishDays | Main.py:11-19 | this page's `categorize_publish_days` as written |
| MainPage.CategorizeOrgType | Main.py:20-79 | this page's `categorize_org_type` as written |
| MainPage.CategorizeIncome | Main.py:80-92 | this page's `categorize_income` as written |
| MainPage.BucketizersAgree | Main.py:7-92 | all four bucketizers of this page give the reference labels |
| MainPage.ScoreMessageAgrees | Main.py:140-150 | the message cascade shows the tier message of the percentage |
| MainPage.ScoreMessageMonotone | Main.py:140-150 | a higher percentage never shows the message of a lower tier |
| MainPage.ScoreMessage | Main.py:140-150 | this page's advisory-message cascade as written |
| MainPage.ShowPrediction | Main.py:139-198 | status 200 exactly gives a score: the percentage, its tier message and a gauge at it; anything else the failure banner |
| MainPage.GaugeStepsSame | Main.py:175-185 | the steps are the two-page dashboard's, spanning `[0, 100]`, hence of the same shape |
| MainPage.GaugeSteps | Main.py:175-185 | this page's step table, spanning `[0, 100]` |
| MainPage.PredictionColumns | Main.py:98-103 | the same fifteen wire columns as Dashboardneo.py's |
| MainPage.InfoColumns | Main.py:104-107 | seven display-only columns, without `DAYS_LAST_PHONE_CHANGE` |
| MainPage.ColumnsToLoad | Main.py:110 | the two lists concatenated, 22 distinct columns (by ColumnListsWellFormed) |
| MainPage.ColumnListsWellFormed | Main.py:98-110 | the same wire columns, the first seven display columns, 22 distinct columns loaded, none of them the phone-change offset |
| MainPage.RowPayload | Main.py:119-133 | the record sent for the selected client: the wire columns of its row |
| MainPage.RowPayloadSame | Main.py:119-133 | the same payload as the two-page dashboard's for the same record, so with the keys of its manual-entry payload, fifteen of them |
| MainPage.ClientColumn | Main.py:219-224 | the age, gender and job-field metrics |
| MainPage.IncomeColumn | Main.py:245-250 | the income, education and income-type metrics |
| MainPage.HouseholdColumn | Main.py:253-256 | the family-status and housing-type metrics |
| MainPage.AddressColumn | Main.py:257-260 | the housing type again, then the tenure |
| MainPage.PropertyColumn | Main.py:261-264 | the car and real-estate flags |
| MainPage.CreditColumn | Main.py:266-269 | the credit, then the housing type a third time |
| MainPage.Panel | Main.py:215-269 | the six metric columns, left to right and top to bottom |
| MainPage.PanelAgrees | Main.py:209-260 | the age, job field, income and tenure shown are the reference labels |
| MainPage.PanelVersusNeo | Main.py:253-269 | for the same client the panel equals the two-page dashboard's except where that one shows the address flag and the phone months: there this one repeats that panel's housing-type metric, under a different title |
| MainPage.ClientColumnSame | Main.py:219-224 | the first column equals the two-page dashboard's for the same client |
| MainPage.IncomeColumnSame | Main.py:245-250 | the income column equals the two-page dashboard's for the same client |
| MainPage.AddressColumnVersusNeo | Main.py:257-260 | the column is the two-page dashboard's housing-type metric followed by its tenure metric |
| LegacyDashboard.ClientDataKeys | dashboard.py:48-64 | the payload's keys are exactly the fifteen wire columns |
| LegacyDashboard.ClientData | dashboard.py:48-64 | the payload, both day offsets negated (stated by ClientDataKeys, ClientDataTenure, ClientDataVersusNeo) |
| LegacyDashboard.ClientDataTenure | dashboard.py:35-53 | an ID document issued `d` days ago goes out non-positive for `d >= 0` and is bucketed over ten years exactly when `d > 3650`, five to ten when `1825 < d <= 3650`, one to five when `365 < d <= 1825`, under one when `d <= 365` |
| LegacyDashboard.TenureVersusNeo | dashboard.py:53 | for `d >= 0` this page and Dashboardneo.py:299 give the same tenure bucket exactly when `d <= 365` |
| LegacyDashboard.ClientDataVersusNeo | dashboard.py:48-64 | same keys as the two-page form payload, same values but for the ID offset, which agrees only when it is 0 |
| LegacyDashboard.ShowPrediction | dashboard.py:70-109 | status 200 exactly gives a score, the raw probability, and a gauge at that probability; anything else the failure banner |
| LegacyDashboard.GaugeUnscaled | dashboard.py:71-76 | the gauge value is a hundredth of the two-page dashboard's, in `[0, 1]` for a probability |
| LegacyDashboard.GaugeStepsScaled | dashboard.py:85-95 | every step bound is the two-page dashboard's divided by 100, with the same colour |
| LegacyDashboard.GaugeStepsShape | dashboard.py:85-95 | nine bands tiling `[0, 1]`, dividers 0.01 wide centred on 0.2, 0.4, 0.6, 0.8 |
| LegacyDashboard.GaugeSteps | dashboard.py:85-95 | the step table on `[0, 1]` |
| LegacyDashboard.MarkerOnGauge | dashboard.py:74-102 | for a successful answer the marker lies on some step exactly when the probability is within `[0, 1]` |
| LegacyDashboard.GaugeColourTier | dashboard.py:85-95 | a probability on the `k`-th coloured band is, as a percentage, in the `k`-th tier |

## Left out

- Streamlit layout, titles, markdown, containers, sidebars and page navigation: presentation only.
- The scoring service: `requests.post` and the HTTP exchange are out of scope. The status code and the `prediction` field of the answer are inputs to `ShowPrediction`. A malformed response body is not modelled.
- pandas:
  - `read_csv`, `dropna`, the id filter and `iloc[0]` are out of scope.
  - The panel functions take one already-filtered `ClientRow`.
  - Column values are typed per field: days are integers, amounts are reals.
- Plotly figure construction is not modelled: the axis, tick labels, threshold marker, number format, and the bar-colour mutation `fig['data'][0]['gauge']['bar']['color']`. Only the step table and the gauge value are kept.
- The downloadable CSV text (a header line, then the selected client's id and the score) and its download button (Dashboardneo.py:152-159, Main.py:153-160): file output, not modelled.
- `date.today()` and the date-picker arithmetic: the form's age in days is an integer input.
- Widget ranges: the client-id bounds, the `[0, 1]` sliders and the select-box lists are not enforced. The code tables accept exactly their choices (`FormChoicesValid`).
- Binary floating point is not modelled. Reals are exact, so `0.427 * 100` is 42.7 exactly. The `:.2f` display of the score and `print` logging are left out too.
- `ScoreRules.Percent`: scaling by 100 with no IEEE-754 rounding, so a value just below a tier bound cannot round up onto it.
- The gauge figure `fig` is defined only on a successful answer (Main.py:162, Dashboardneo.py:161) but used on every path (Main.py:228-244, Dashboardneo.py:213-229). The NameError this raises after a failed call is not modelled.
- DashboardNeo.ClientData: a map, so key order is not modelled. The manual-entry payload (Dashboardneo.py:294-310, dashboard.py:48-64, also `LegacyDashboard.ClientData`) sends `CODE_GENDER` first; the record-lookup payload (`RowPayload`) sends the wire columns in list order, `SK_ID_CURR` first. `ClientDataKeys` and `RowPayloadMatchesForm` state the key sets only.
- DashboardNeo.PhoneChangeMonthsIsDiv: the phone-change offset is modelled as an integer. pandas may hand a float after `dropna`, and the model does not capture a fractional day count.
- FeatureRules.OrgCategory: Python's list `in` and string `in` are modelled as set membership and a substring predicate. Their order of evaluation has no observable effect.
