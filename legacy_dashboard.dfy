/** The rule layer of the single-form dashboard (dashboard.py): its request
    payload, which negates the ID document offset as well, and its gauge on the
    unscaled probability, whose steps are the two-page dashboard's divided by 100. */
module LegacyDashboard {
  import opened FeatureRules
  import opened ScoreRules
  import opened RequestRules
  import DashboardNeo

  // ---------------------------------------------------------------------------
  // The request (dashboard.py:12-64)
  // ---------------------------------------------------------------------------

  /** The payload sent for the form. */
  function ClientData(f: FormInput): map<string, Json>
    requires FormChoicesValid(f)
  {
    map[
      "CODE_GENDER" := JStr(GenderCodes[f.gender]),
      "FLAG_OWN_CAR" := JStr(FlagCodes[f.ownsCar]),
      "ORGANIZATION_TYPE" := JStr(f.orgType),
      "DAYS_BIRTH" := JInt(-f.daysBirth),
      "DAYS_ID_PUBLISH" := JInt(-f.daysIdPublish),
      "SK_ID_CURR" := JInt(f.clientId),
      "REG_CITY_NOT_LIVE_CITY" := JInt(CityCodes[f.sameAddress]),
      "EXT_SOURCE_1" := JReal(f.extSource1),
      "EXT_SOURCE_2" := JReal(f.extSource2),
      "EXT_SOURCE_3" := JReal(f.extSource3),
      "YEARS_BEGINEXPLUATATION_MODE" := JReal(f.yearsBeginExpluatation),
      "COMMONAREA_MODE" := JReal(f.commonArea),
      "FLOORSMAX_MODE" := JReal(f.floorsMax),
      "LIVINGAPARTMENTS_MODE" := JReal(f.livingApartments),
      "YEARS_BUILD_MEDI" := JReal(f.yearsBuild)
    ]
  }

  /** The payload's keys are exactly the wire fields of the two-page dashboard. */
  lemma ClientDataKeys(f: FormInput)
    requires FormChoicesValid(f)
    ensures forall i | 0 <= i < |DashboardNeo.PredictionColumns| :: DashboardNeo.PredictionColumns[i] in ClientData(f)
    ensures forall k | k in ClientData(f) :: k in DashboardNeo.PredictionColumns
  {
  }

  /** An ID document entered as issued `d` days ago goes out negated, non-positive
      for `d >= 0`, so the record it makes is bucketed by how long ago the document
      was issued: over ten years exactly when `d > 3650`, and so on down to less
      than a year exactly when `d <= 365`. */
  lemma ClientDataTenure(f: FormInput)
    requires FormChoicesValid(f)
    ensures var id := ClientData(f)["DAYS_ID_PUBLISH"];
            id.JInt? && (f.daysIdPublish >= 0 ==> id.i <= 0)
    ensures var l := TenureLabel(ClientData(f)["DAYS_ID_PUBLISH"].i);
            var d := f.daysIdPublish;
            && (l == "> 10 years" <==> d > 3650)
            && (l == "5-10 years" <==> 1825 < d <= 3650)
            && (l == "1-5 years" <==> 365 < d <= 1825)
            && (l == "< 1 year" <==> d <= 365)
  {
    assert ClientData(f)["DAYS_ID_PUBLISH"] == JInt(-f.daysIdPublish);
  }

  /** For a document issued `d >= 0` days ago this page and the two-page dashboard
      send records in the same tenure bucket exactly when `d <= 365`. */
  lemma TenureVersusNeo(f: FormInput)
    requires FormChoicesValid(f)
    ensures f.daysIdPublish >= 0 ==>
              (TenureLabel(ClientData(f)["DAYS_ID_PUBLISH"].i) ==
               TenureLabel(DashboardNeo.ClientData(f)["DAYS_ID_PUBLISH"].i)
               <==> f.daysIdPublish <= 365)
  {
    ClientDataTenure(f);
    DashboardNeo.ClientDataTenure(f);
  }

  /** For the same form this payload and the two-page dashboard's have the same keys
      and the same value for every field but the ID document offset, on which they
      agree exactly when the offset is zero. */
  lemma ClientDataVersusNeo(f: FormInput)
    requires FormChoicesValid(f)
    ensures ClientData(f).Keys == DashboardNeo.ClientData(f).Keys
    ensures forall k | k in ClientData(f) && k != "DAYS_ID_PUBLISH" :: ClientData(f)[k] == DashboardNeo.ClientData(f)[k]
    ensures ClientData(f)["DAYS_ID_PUBLISH"] == DashboardNeo.ClientData(f)["DAYS_ID_PUBLISH"] <==> f.daysIdPublish == 0
  {
  }

  // ---------------------------------------------------------------------------
  // The gauge (dashboard.py:70-95)
  // ---------------------------------------------------------------------------

  /** What the page shows for the scoring service's answer: the raw probability as
      the score and as the gauge value, or the failure banner. */
  datatype LegacyView = Shown(score: real, gauge: real) | Failed

  function ShowPrediction(status: int, raw: real): (v: LegacyView)
    ensures v.Shown? <==> status == 200
    ensures v.Shown? ==> v.score == raw && v.gauge == raw
  {
    if status == 200 then Shown(raw, raw) else Failed
  }

  /** The gauge value is a hundredth of the two-page dashboard's for the same answer,
      and stays within the gauge's range `[0, 1]` for a probability. */
  lemma GaugeUnscaled(status: int, raw: real)
    requires status == 200
    ensures DashboardNeo.ShowPrediction(status, raw).gauge == 100.0 * ShowPrediction(status, raw).gauge
    ensures 0.0 <= raw <= 1.0 ==> 0.0 <= ShowPrediction(status, raw).gauge <= 1.0
  {
  }

  /** The steps of the gauge. */
  const GaugeSteps: seq<Band> := [
    Band(0.0, 0.195, "#f13c0b"),
    Band(0.195, 0.205, "#fffef5"),
    Band(0.205, 0.395, "#fe7900"),
    Band(0.395, 0.405, "#fffef5"),
    Band(0.405, 0.595, "#ffcf15"),
    Band(0.595, 0.605, "#fffef5"),
    Band(0.605, 0.795, "#88c817"),
    Band(0.795, 0.805, "#fffef5"),
    Band(0.805, 1.0, "#01bf11")
  ]

  /** Every bound is the matching bound of the two-page dashboard's steps divided by
      100, with the same colours. */
  lemma GaugeStepsScaled()
    ensures |GaugeSteps| == |DashboardNeo.GaugeSteps|
    ensures forall i | 0 <= i < |GaugeSteps| ::
              && GaugeSteps[i].lo == DashboardNeo.GaugeSteps[i].lo / 100.0
              && GaugeSteps[i].hi == DashboardNeo.GaugeSteps[i].hi / 100.0
              && GaugeSteps[i].color == DashboardNeo.GaugeSteps[i].color
  {
  }

  /** Nine bands tiling `[0, 1]`, with dividers 0.01 wide centred on 0.2, 0.4, 0.6
      and 0.8. */
  lemma GaugeStepsShape()
    ensures GaugeShape(GaugeSteps, 1.0)
  {
    assert DividerAt(GaugeSteps[1], 0.2, 0.01);
    assert DividerAt(GaugeSteps[3], 0.4, 0.01);
    assert DividerAt(GaugeSteps[5], 0.6, 0.01);
    assert DividerAt(GaugeSteps[7], 0.8, 0.01);
  }

  /** The marker of a successful answer lies on some step of this gauge exactly when
      the probability is within `[0, 1]`. */
  lemma MarkerOnGauge(status: int, raw: real)
    requires status == 200
    ensures var g := ShowPrediction(status, raw).gauge;
            (exists i | 0 <= i < |GaugeSteps| :: GaugeSteps[i].lo <= g <= GaugeSteps[i].hi) <==> 0.0 <= raw <= 1.0
  {
    GaugeStepsShape();
    OnSomeStep(GaugeSteps, 1.0, ShowPrediction(status, raw).gauge);
  }

  /** A probability on the `k`-th coloured band of this gauge is, as a percentage, in
      the `k`-th tier. */
  lemma GaugeColourTier(raw: real, k: nat)
    requires k < 5 && GaugeSteps[2 * k].lo <= raw <= GaugeSteps[2 * k].hi
    ensures TierOf(Percent(raw)) == Tiers[k]
  {
    GaugeStepsScaled();
    var b := DashboardNeo.GaugeSteps[2 * k];
    assert b.lo <= Percent(raw) <= b.hi;
    DashboardNeo.GaugeStepsShape();
    ColourBandTier(DashboardNeo.GaugeSteps, k, Percent(raw));
  }
}
