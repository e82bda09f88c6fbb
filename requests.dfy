/** Request assembly and the display helpers the pages share: the JSON values sent to
    the scoring service, column lists, the form's lookup tables and their inverses
    on the dashboard, and Python's `int(x)` and `f"${n:,}"`. */
module RequestRules {
  import opened Text

  // ---------------------------------------------------------------------------
  // Payload values and column lists
  // ---------------------------------------------------------------------------

  /** The JSON values a payload field can hold. */
  datatype Json = JInt(i: int) | JReal(r: real) | JStr(s: string)

  /** No name occurs twice. */
  predicate Distinct(names: seq<string>) {
    forall i, j | 0 <= i < j < |names| :: names[i] != names[j]
  }

  /** No name occurs in both lists. */
  predicate Disjoint(a: seq<string>, b: seq<string>) {
    forall i, j | 0 <= i < |a| && 0 <= j < |b| :: a[i] != b[j]
  }

  /** The concatenation of two duplicate-free, disjoint lists is duplicate-free. */
  lemma DistinctConcat(a: seq<string>, b: seq<string>)
    requires Distinct(a) && Distinct(b) && Disjoint(a, b)
    ensures Distinct(a + b)
  {
    var c := a + b;
    forall i, j | 0 <= i < j < |c| ensures c[i] != c[j] {
      if j < |a| {
        assert c[i] == a[i] && c[j] == a[j];
      } else if i < |a| {
        assert c[i] == a[i] && c[j] == b[j - |a|];
      } else {
        assert c[i] == b[i - |a|] && c[j] == b[j - |a|];
      }
    }
  }

  /** The names a column list mentions. */
  function Names(columns: seq<string>): set<string> {
    set i | 0 <= i < |columns| :: columns[i]
  }

  /** A duplicate-free list names as many columns as it is long. */
  lemma {:induction false} DistinctNamesCount(columns: seq<string>)
    requires Distinct(columns)
    ensures |Names(columns)| == |columns|
    decreases |columns|
  {
    if |columns| > 0 {
      var n := |columns| - 1;
      var init := columns[..n];
      assert Distinct(init) by {
        forall i, j | 0 <= i < j < |init| ensures init[i] != init[j] {
          assert init[i] == columns[i] && init[j] == columns[j];
        }
      }
      DistinctNamesCount(init);
      assert Names(columns) == Names(init) + {columns[n]} by {
        forall x | x in Names(columns) ensures x in Names(init) + {columns[n]} {
          var i :| 0 <= i < |columns| && columns[i] == x;
          if i < n {
            assert init[i] == x;
          }
        }
        forall x | x in Names(init) ensures x in Names(columns) {
          var i :| 0 <= i < |init| && init[i] == x;
          assert columns[i] == x;
        }
      }
      assert columns[n] !in Names(init) by {
        forall i | 0 <= i < |init| ensures init[i] != columns[n] {
          assert init[i] == columns[i];
        }
      }
    }
  }

  /** `row[columns].to_dict()` for one record: the fields of `row` named in `columns`,
      with the record's values. */
  function SelectColumns(row: map<string, Json>, columns: seq<string>): (r: map<string, Json>)
    requires forall i | 0 <= i < |columns| :: columns[i] in row
    ensures r.Keys == Names(columns)
    ensures forall k | k in r :: r[k] == row[k]
  {
    map k | k in Names(columns) :: row[k]
  }

  /** The manual-entry form: the choices of the three select boxes, the organisation
      type, the age in days, the ID document offset, the client number and the eight
      slider scores. */
  datatype FormInput = FormInput(
    gender: string, ownsCar: string, orgType: string,
    daysBirth: int, daysIdPublish: int, clientId: int, sameAddress: string,
    extSource1: real, extSource2: real, extSource3: real,
    yearsBeginExpluatation: real, commonArea: real, floorsMax: real,
    livingApartments: real, yearsBuild: real)

  /** The select boxes only offer the choices the lookup tables know. */
  predicate FormChoicesValid(f: FormInput) {
    f.gender in GenderCodes && f.ownsCar in FlagCodes && f.sameAddress in CityCodes
  }

  // ---------------------------------------------------------------------------
  // Form choices and how the dashboard shows the codes back
  // ---------------------------------------------------------------------------

  /** `{"Male": "M", "Female": "F"}` */
  const GenderCodes: map<string, string> := map["Male" := "M", "Female" := "F"]

  /** `{"Yes": "Y", "No": "N"}` */
  const FlagCodes: map<string, string> := map["Yes" := "Y", "No" := "N"]

  /** `{"Yes": 1, "No": 0}` */
  const CityCodes: map<string, int> := map["Yes" := 1, "No" := 0]

  /** Each table is defined on exactly the choices its select box offers, and sends
      different choices to different codes. */
  lemma FormCodesTotalAndInjective()
    ensures GenderCodes.Keys == {"Male", "Female"} && GenderCodes["Male"] != GenderCodes["Female"]
    ensures FlagCodes.Keys == {"Yes", "No"} && FlagCodes["Yes"] != FlagCodes["No"]
    ensures CityCodes.Keys == {"Yes", "No"} && CityCodes["Yes"] != CityCodes["No"]
  {
  }

  /** `"Male" if code == "M" else "Female"` */
  function GenderDisplay(code: string): (shown: string)
    ensures shown == "Male" || shown == "Female"
    ensures shown == "Male" <==> code == "M"
  {
    if code == "M" then "Male" else "Female"
  }

  /** `"Yes" if code == "Y" else "No"` */
  function FlagDisplay(code: string): (shown: string)
    ensures shown == "Yes" || shown == "No"
    ensures shown == "Yes" <==> code == "Y"
  {
    if code == "Y" then "Yes" else "No"
  }

  /** `"Yes" if flag == 1 else "No"` */
  function CityDisplay(flag: int): (shown: string)
    ensures shown == "Yes" || shown == "No"
    ensures shown == "Yes" <==> flag == 1
  {
    if flag == 1 then "Yes" else "No"
  }

  /** One metric of a dashboard panel: its title and the value shown. */
  datatype Metric = Metric(title: string, value: string)

  /** Showing a code the form produced gives back the choice made on the form. */
  lemma DisplayInvertsForm(choice: string)
    ensures choice in GenderCodes ==> GenderDisplay(GenderCodes[choice]) == choice
    ensures choice in FlagCodes ==> FlagDisplay(FlagCodes[choice]) == choice
    ensures choice in CityCodes ==> CityDisplay(CityCodes[choice]) == choice
  {
  }

  // ---------------------------------------------------------------------------
  // `int(x)` and the credit amount `f"${int(x):,}"`
  // ---------------------------------------------------------------------------

  /** Python's `int(x)` on a number: truncation toward zero. */
  function TruncToInt(x: real): (n: int)
    ensures x >= 0.0 ==> n == x.Floor
    ensures x >= 0.0 ==> n as real <= x < n as real + 1.0
    ensures x < 0.0 ==> n as real - 1.0 < x <= n as real
    ensures (x >= 0.0 ==> 0 <= n) && (x <= 0.0 ==> n <= 0)
    ensures -1.0 < x < 1.0 ==> n == 0
  {
    if x >= 0.0 then x.Floor else -((-x).Floor)
  }

  /** Truncation never moves away from zero. */
  lemma TruncTowardZero(x: real)
    ensures x >= 0.0 ==> TruncToInt(x) as real <= x
    ensures x <= 0.0 ==> x <= TruncToInt(x) as real
    ensures TruncToInt(-x) == -TruncToInt(x)
  {
  }

  /** The credit amount as displayed. */
  function CreditDisplay(amount: real): string {
    "$" + IntWithCommas(TruncToInt(amount))
  }

  /** For a non-negative amount: a dollar sign, then digit groups of which the first
      has one to three digits and every later one exactly three (PEP 378), which
      without the commas spell the whole-dollar part of the amount, with no leading
      zero unless that part is 0. */
  lemma CreditDisplayShape(amount: real)
    requires amount >= 0.0
    ensures var s := CreditDisplay(amount);
            && |s| >= 2 && s[0] == '$'
            && Grouped(s[1..])
            && RemoveCommas(s[1..]) == NatToString(amount.Floor)
            && (s[1] == '0' <==> amount.Floor == 0)
  {
    var n: nat := amount.Floor;
    GroupThousandsGrouped(n);
    GroupThousandsDigits(n);
    GroupThousandsFirst(n);
    assert CreditDisplay(amount)[1..] == GroupThousands(n);
  }
}
