/** The per-tick vitals and room-environment pipeline of app/vitals_simulator.py.

    Every `random.*` draw, the circadian cosine and the elapsed time since the last
    medication are parameters; a draw's range is a precondition. Numbers are `real`. */
module VitalsSimulator {
  import opened Common
  import opened VitalSigns

  // ---------------------------------------------------------------------------
  // Baselines (get_baseline_vitals_for_patient)
  // ---------------------------------------------------------------------------

  /** Heart rate, systolic and diastolic baseline of an age band. */
  function AgeBand(age: int): (band: (real, real, real))
    ensures age < 18 ==> band == (90.0, 105.0, 65.0)
    ensures 18 <= age < 65 ==> band == (70.0, 120.0, 80.0)
    ensures 65 <= age ==> band == (75.0, 130.0, 85.0)
  {
    if age < 18 then (90.0, 105.0, 65.0)
    else if age < 65 then (70.0, 120.0, 80.0)
    else (75.0, 130.0, 85.0)
  }

  /** `amount` when `condition` is listed, else nothing. */
  function Shift(conditions: seq<string>, condition: string, amount: real): real {
    if condition in conditions then amount else 0.0
  }

  /** The baseline as a sum of the age band and one independent shift per condition. */
  function Baseline(age: int, conditions: seq<string>): Vitals {
    var band := AgeBand(age);
    Vitals(
      heartRate := band.0 + Shift(conditions, "cardiac_arrhythmia", 15.0),
      oxygenLevel := 98.0 - Shift(conditions, "copd", 6.0) - Shift(conditions, "asthma", 2.0),
      temperature := 37.0,
      systolicBP := band.1 + Shift(conditions, "hypertension", 15.0),
      diastolicBP := band.2 + Shift(conditions, "hypertension", 10.0),
      respiratoryRate := 16.0 + Shift(conditions, "copd", 6.0) + Shift(conditions, "asthma", 2.0),
      glucose := 100.0 + Shift(conditions, "diabetes", 30.0))
  }

  /** The fields a condition shifts, and by how much. */
  function ConditionDelta(condition: string, f: VitalField): real {
    match condition
    case "hypertension" => if f == SystolicBP then 15.0 else if f == DiastolicBP then 10.0 else 0.0
    case "diabetes" => if f == Glucose then 30.0 else 0.0
    case "copd" => if f == OxygenLevel then -6.0 else if f == RespiratoryRate then 6.0 else 0.0
    case "asthma" => if f == OxygenLevel then -2.0 else if f == RespiratoryRate then 2.0 else 0.0
    case "cardiac_arrhythmia" => if f == HeartRate then 15.0 else 0.0
    case _ => 0.0
  }

  /** Builds the baseline the way the source does: the age band, the common values,
      then one `+=` / `-=` per listed condition. */
  method GetBaselineVitalsForPatient(age: int, conditions: seq<string>) returns (baseline: Vitals)
    ensures baseline == Baseline(age, conditions)
  {
    var hr, sys, dia;
    if age < 18 {
      hr, sys, dia := 90.0, 105.0, 65.0;
    } else if age < 65 {
      hr, sys, dia := 70.0, 120.0, 80.0;
    } else {
      hr, sys, dia := 75.0, 130.0, 85.0;
    }
    baseline := Vitals(hr, 98.0, 37.0, sys, dia, 16.0, 100.0);
    if "hypertension" in conditions {
      baseline := baseline.(systolicBP := baseline.systolicBP + 15.0);
      baseline := baseline.(diastolicBP := baseline.diastolicBP + 10.0);
    }
    if "diabetes" in conditions {
      baseline := baseline.(glucose := baseline.glucose + 30.0);
    }
    if "copd" in conditions {
      baseline := baseline.(oxygenLevel := baseline.oxygenLevel - 6.0);
      baseline := baseline.(respiratoryRate := baseline.respiratoryRate + 6.0);
    }
    if "asthma" in conditions {
      baseline := baseline.(oxygenLevel := baseline.oxygenLevel - 2.0);
      baseline := baseline.(respiratoryRate := baseline.respiratoryRate + 2.0);
    }
    if "cardiac_arrhythmia" in conditions {
      baseline := baseline.(heartRate := baseline.heartRate + 15.0);
    }
  }

  /** With no conditions the baseline is the age band plus O2 98, temperature 37.0,
      respiratory rate 16 and glucose 100, at every age. */
  lemma BaselineWithoutConditions(age: int)
    ensures Baseline(age, []) == Vitals(AgeBand(age).0, 98.0, 37.0, AgeBand(age).1, AgeBand(age).2, 16.0, 100.0)
  {
  }

  /** Condition adjustments are additive and independent: listing one more condition
      moves exactly the fields it names, by its own amount, and leaves the rest alone. */
  lemma {:induction false} BaselineConditionIsIndependent(age: int, conditions: seq<string>, c: string, f: VitalField)
    requires c !in conditions
    ensures Baseline(age, conditions + [c]).Get(f) == Baseline(age, conditions).Get(f) + ConditionDelta(c, f)
  {
    var more := conditions + [c];
    forall x ensures x in more <==> x in conditions || x == c {
      if x in more {
        var i :| 0 <= i < |more| && more[i] == x;
        if i < |conditions| { assert conditions[i] == x; }
      }
      if x == c { assert more[|conditions|] == c; }
      if x in conditions {
        var i :| 0 <= i < |conditions| && conditions[i] == x;
        assert more[i] == x;
      }
    }
  }

  // ---------------------------------------------------------------------------
  // Trend state (initialize_trends_for_patient, generate_trend)
  // ---------------------------------------------------------------------------

  /** A trend as the simulator stores it (`{'direction', 'magnitude', 'duration'}`):
      while `duration` is positive the vital drifts by `direction * magnitude` a tick. */
  datatype Trend = Trend(direction: int, magnitude: real, duration: int)

  /** A trend table holds a trend for every vital. */
  predicate TrendTable(trends: map<VitalField, Trend>) {
    forall f :: f in trends
  }

  /** A trend after one tick: an active one counts its duration down by one. */
  function Stepped(t: Trend): Trend {
    if t.duration > 0 then t.(duration := t.duration - 1) else t
  }

  /** Every trend of a table after one tick. */
  function StepAll(trends: map<VitalField, Trend>): (r: map<VitalField, Trend>)
    ensures r.Keys == trends.Keys
  {
    map f | f in trends :: Stepped(trends[f])
  }

  /** The fixed step size of each vital's trend. */
  function TrendMagnitude(f: VitalField): (m: real)
    ensures m > 0.0
  {
    match f
    case HeartRate => 2.0
    case OxygenLevel => 1.0
    case Temperature => 0.2
    case SystolicBP => 5.0
    case DiastolicBP => 3.0
    case RespiratoryRate => 1.0
    case Glucose => 10.0
  }

  /** The (direction, duration) a state seeds a vital's trend with. */
  function TrendSeed(state: string, f: VitalField): (seed: (int, int))
    ensures -1 <= seed.0 <= 1 && seed.1 >= 0
    ensures seed.0 == 0 <==> seed.1 == 0
    ensures state !in {"critical", "recovering", "deteriorating"} ==> seed == (0, 0)
    ensures state == "critical" ==>
      seed == (match f case HeartRate => (1, 10) case OxygenLevel => (-1, 8) case RespiratoryRate => (1, 12) case _ => (0, 0))
  {
    match state
    case "critical" =>
      (match f case HeartRate => (1, 10) case OxygenLevel => (-1, 8) case RespiratoryRate => (1, 12) case _ => (0, 0))
    case "recovering" =>
      (match f case OxygenLevel => (1, 5) case RespiratoryRate => (-1, 3) case _ => (0, 0))
    case "deteriorating" =>
      (match f case Temperature => (1, 8) case HeartRate => (1, 6) case _ => (0, 0))
    case _ => (0, 0)
  }

  /** A neutral trend per vital with its fixed magnitude, then the seeds of the state
      written into the table entry by entry. (The conditions are not consulted.) */
  method InitializeTrendsForPatient(state: string, conditions: seq<string>) returns (trends: map<VitalField, Trend>)
    ensures TrendTable(trends)
    ensures forall f :: trends[f].magnitude == TrendMagnitude(f)
    ensures forall f :: (trends[f].direction, trends[f].duration) == TrendSeed(state, f)
  {
    trends := map[
      HeartRate := Trend(0, 2.0, 0),
      OxygenLevel := Trend(0, 1.0, 0),
      Temperature := Trend(0, 0.2, 0),
      SystolicBP := Trend(0, 5.0, 0),
      DiastolicBP := Trend(0, 3.0, 0),
      RespiratoryRate := Trend(0, 1.0, 0),
      Glucose := Trend(0, 10.0, 0)];
    ghost var neutral := trends;
    forall f ensures f in neutral && neutral[f] == Trend(0, TrendMagnitude(f), 0) {
      match f
      case HeartRate =>
      case OxygenLevel =>
      case Temperature =>
      case SystolicBP =>
      case DiastolicBP =>
      case RespiratoryRate =>
      case Glucose =>
    }
    if state == "critical" {
      trends := trends[HeartRate := trends[HeartRate].(direction := 1, duration := 10)];
      trends := trends[OxygenLevel := trends[OxygenLevel].(direction := -1, duration := 8)];
      trends := trends[RespiratoryRate := trends[RespiratoryRate].(direction := 1, duration := 12)];
    } else if state == "recovering" {
      trends := trends[OxygenLevel := trends[OxygenLevel].(direction := 1, duration := 5)];
      trends := trends[RespiratoryRate := trends[RespiratoryRate].(direction := -1, duration := 3)];
    } else if state == "deteriorating" {
      trends := trends[Temperature := trends[Temperature].(direction := 1, duration := 8)];
      trends := trends[HeartRate := trends[HeartRate].(direction := 1, duration := 6)];
    }
    assert trends.Keys == neutral.Keys;
    forall f ensures trends[f] == Trend(TrendSeed(state, f).0, TrendMagnitude(f), TrendSeed(state, f).1) {
      match f
      case HeartRate =>
      case OxygenLevel =>
      case Temperature =>
      case SystolicBP =>
      case DiastolicBP =>
      case RespiratoryRate =>
      case Glucose =>
    }
  }

  /** (volatility, trendStrength) of a patient state; an unknown state behaves as "stable". */
  function StateModifier(state: string): (m: (real, real))
    ensures 0.0 < m.0 <= 0.1 && 0.0 < m.1 <= 0.5
    ensures state !in {"recovering", "critical", "deteriorating"} ==> m == (0.02, 0.1)
  {
    match state
    case "recovering" => (0.05, 0.3)
    case "critical" => (0.1, 0.5)
    case "deteriorating" => (0.08, 0.4)
    case _ => (0.02, 0.1)
  }

  /** `(random.random() - 0.5) * 2 * volatility * baseline` for a draw `r` in [0, 1), where
      `amplitude` is `volatility * baseline`. */
  function Noise(r: real, amplitude: real): real {
    Centered(r) * amplitude
  }

  /** `(r - 0.5) * 2`: a draw in [0, 1) moved to [-1, 1). */
  function Centered(r: real): (t: real)
    ensures 0.0 <= r < 1.0 ==> -1.0 <= t < 1.0
  {
    (r - 0.5) * 2.0
  }

  /** The noise stays within the amplitude either side of zero. */
  lemma NoiseBounds(r: real, amplitude: real)
    requires 0.0 <= r < 1.0
    ensures amplitude >= 0.0 ==> -amplitude <= Noise(r, amplitude) <= amplitude
    ensures amplitude > 0.0 ==> Noise(r, amplitude) < amplitude
    ensures amplitude <= 0.0 ==> amplitude <= Noise(r, amplitude) <= -amplitude
  {
    var t := Centered(r);
    assert Noise(r, amplitude) == t * amplitude;
    ScaledDrawBounds(t, amplitude);
    if amplitude >= 0.0 {
      assert -amplitude <= t * amplitude <= amplitude;
    } else {
      assert amplitude <= t * amplitude <= -amplitude;
    }
  }

  /** A draw scaled to [-1, 1) times an amplitude stays within that amplitude. */
  lemma ScaledDrawBounds(t: real, vb: real)
    requires -1.0 <= t < 1.0
    ensures vb >= 0.0 ==> -vb <= t * vb <= vb
    ensures vb > 0.0 ==> t * vb < vb
    ensures vb <= 0.0 ==> vb <= t * vb <= -vb
  {
    assert (t + 1.0) * vb == t * vb + vb;
    assert (1.0 - t) * vb == vb - t * vb;
    if vb >= 0.0 {
      MulNonNeg(t + 1.0, vb);
      MulNonNeg(1.0 - t, vb);
      if vb > 0.0 { MulPos(1.0 - t, vb); }
    } else {
      MulNonPos(vb, t + 1.0);
      MulNonPos(vb, 1.0 - t);
    }
  }

  /** The 5% pull back to the baseline: `v + (baseline - v) * 0.05`. */
  function Revert(v: real, baseline: real): (r: real)
    ensures r - baseline == 0.95 * (v - baseline)
    ensures v <= baseline ==> v <= r <= baseline
    ensures baseline <= v ==> baseline <= r <= v
  {
    v + (baseline - v) * 0.05
  }

  /** The next value of a vital: the carried trend while it lasts, plus noise, pulled 5% back to the baseline. */
  function TrendValue(current: real, baseline: real, direction: int, magnitude: real, duration: int,
                      state: string, r: real): real
    requires 0.0 <= r < 1.0
  {
    var effect := if duration > 0 then direction as real * magnitude * StateModifier(state).1 else 0.0;
    Revert(current + effect + Noise(r, StateModifier(state).0 * baseline), baseline)
  }

  /** Every vital stepped by its own trend state and noise draw. */
  function TrendsApplied(v: Vitals, baseline: Vitals, trends: map<VitalField, Trend>, state: string, noise: Vitals)
    : (r: Vitals)
    requires forall f :: f in trends
    requires forall f :: 0.0 <= noise.Get(f) < 1.0
    ensures forall f :: r.Get(f) == TrendValue(v.Get(f), baseline.Get(f), trends[f].direction, trends[f].magnitude,
                                               trends[f].duration, state, noise.Get(f))
  {
    Vitals(
      TrendField(v, baseline, trends, state, noise, HeartRate),
      TrendField(v, baseline, trends, state, noise, OxygenLevel),
      TrendField(v, baseline, trends, state, noise, Temperature),
      TrendField(v, baseline, trends, state, noise, SystolicBP),
      TrendField(v, baseline, trends, state, noise, DiastolicBP),
      TrendField(v, baseline, trends, state, noise, RespiratoryRate),
      TrendField(v, baseline, trends, state, noise, Glucose))
  }

  function TrendField(v: Vitals, baseline: Vitals, trends: map<VitalField, Trend>, state: string, noise: Vitals,
                      f: VitalField): real
    requires f in trends && 0.0 <= noise.Get(f) < 1.0
  {
    TrendValue(v.Get(f), baseline.Get(f), trends[f].direction, trends[f].magnitude, trends[f].duration, state, noise.Get(f))
  }

  /** `v` after the first `i` passes of the trend loop: the first `i` vitals in loop order
      replaced by their stepped values. */
  function TrendsPrefix(v: Vitals, i: nat, baseline: Vitals, trends: map<VitalField, Trend>, state: string,
                        noise: Vitals): Vitals
    requires i <= |AllFields| && TrendTable(trends) && forall g :: 0.0 <= noise.Get(g) < 1.0
  {
    if i == 0 then v
    else
      var f := AllFields[i - 1];
      TrendsPrefix(v, i - 1, baseline, trends, state, noise).Set(f, TrendField(v, baseline, trends, state, noise, f))
  }

  /** After `i` passes, a vital is stepped exactly when the loop has reached it. */
  lemma {:induction false} TrendsPrefixAt(v: Vitals, i: nat, baseline: Vitals, trends: map<VitalField, Trend>,
                                          state: string, noise: Vitals, f: VitalField)
    requires i <= |AllFields| && TrendTable(trends) && forall g :: 0.0 <= noise.Get(g) < 1.0
    ensures TrendsPrefix(v, i, baseline, trends, state, noise).Get(f) ==
      if Index(f) < i then TrendField(v, baseline, trends, state, noise, f) else v.Get(f)
  {
    if i > 0 {
      IndexOfPosition(i - 1);
      TrendsPrefixAt(v, i - 1, baseline, trends, state, noise, f);
    }
  }

  /** The trend table after the first `i` passes of the trend loop. */
  function StepPrefix(trends: map<VitalField, Trend>, i: nat): map<VitalField, Trend>
    requires i <= |AllFields| && TrendTable(trends)
  {
    if i == 0 then trends
    else
      var f := AllFields[i - 1];
      StepPrefix(trends, i - 1)[f := Stepped(trends[f])]
  }

  /** After `i` passes, a trend has counted down exactly when the loop has reached its vital. */
  lemma {:induction false} StepPrefixAt(trends: map<VitalField, Trend>, i: nat, f: VitalField)
    requires i <= |AllFields| && TrendTable(trends)
    ensures f in StepPrefix(trends, i)
    ensures StepPrefix(trends, i)[f] == if Index(f) < i then Stepped(trends[f]) else trends[f]
  {
    if i > 0 {
      IndexOfPosition(i - 1);
      StepPrefixAt(trends, i - 1, f);
    }
  }

  function AbsReal(x: real): real { if x < 0.0 then -x else x }

  /** Without an active trend a vital moves toward its baseline: its new distance is at most
      95% of its old distance plus the noise amplitude `volatility * baseline`. */
  lemma IdleTrendRevertsTowardBaseline(current: real, baseline: real, direction: int, magnitude: real,
                                       duration: int, state: string, r: real)
    requires 0.0 <= r < 1.0 && duration <= 0 && baseline >= 0.0
    ensures AbsReal(TrendValue(current, baseline, direction, magnitude, duration, state, r) - baseline)
            <= 0.95 * (AbsReal(current - baseline) + StateModifier(state).0 * baseline)
  {
    var vol := StateModifier(state).0;
    var n := Noise(r, vol * baseline);
    NoiseBounds(r, vol * baseline);
    MulNonNeg(vol, baseline);
    assert AbsReal(current + n - baseline) <= AbsReal(current - baseline) + vol * baseline;
  }

  /** generate_trend: applies the carried trend while it lasts, adds noise, and pulls the value
      5% back to the baseline; `stepped` is the trend dict after its in-place count-down. */
  method GenerateTrend(current: real, baseline: real, trend: Trend, state: string, r: real)
    returns (v: real, stepped: Trend)
    requires 0.0 <= r < 1.0
    ensures v == TrendValue(current, baseline, trend.direction, trend.magnitude, trend.duration, state, r)
    ensures stepped == Stepped(trend)
  {
    var modifier := StateModifier(state);
    var newValue := current;
    stepped := trend;
    if stepped.duration > 0 {
      var trendEffect := stepped.direction as real * stepped.magnitude * modifier.1;
      newValue := newValue + trendEffect;
      stepped := stepped.(duration := stepped.duration - 1);
    }
    var noise := Centered(r) * modifier.0 * baseline;
    MulAssoc(Centered(r), modifier.0, baseline);
    newValue := newValue + noise;
    var returnForce := (baseline - newValue) * 0.05;
    newValue := newValue + returnForce;
    v := newValue;
  }

  /** The trend loop of generate_patient_vitals: every vital steps its own trend once;
      `after` is the patient's trend table once every trend has counted down. */
  method StepTrends(vitals: Vitals, baseline: Vitals, trends: map<VitalField, Trend>, state: string, noise: Vitals)
    returns (r: Vitals, after: map<VitalField, Trend>)
    requires TrendTable(trends) && forall f :: 0.0 <= noise.Get(f) < 1.0
    ensures r == TrendsApplied(vitals, baseline, trends, state, noise)
    ensures after == StepAll(trends)
  {
    r := vitals;
    after := trends;
    for i := 0 to |AllFields|
      invariant r == TrendsPrefix(vitals, i, baseline, trends, state, noise)
      invariant after == StepPrefix(trends, i)
    {
      var f := AllFields[i];
      IndexOfPosition(i);
      TrendsPrefixAt(vitals, i, baseline, trends, state, noise, f);
      StepPrefixAt(trends, i, f);
      var v, t := GenerateTrend(r.Get(f), baseline.Get(f), after[f], state, noise.Get(f));
      r := r.Set(f, v);
      after := after[f := t];
    }
    forall f ensures r.Get(f) == TrendsApplied(vitals, baseline, trends, state, noise).Get(f) {
      TrendsPrefixAt(vitals, |AllFields|, baseline, trends, state, noise, f);
    }
    VitalsExtensional(r, TrendsApplied(vitals, baseline, trends, state, noise));
    forall f ensures f in after && after[f] == StepAll(trends)[f] {
      StepPrefixAt(trends, |AllFields|, f);
    }
  }

  // ---------------------------------------------------------------------------
  // Condition modifiers (apply_condition_modifiers)
  // ---------------------------------------------------------------------------

  /** `modifiers[condition][vital]`, if the table defines it. */
  function ConditionModifier(condition: string, f: VitalField): (m: Option<real>)
    ensures m.Some? ==> m.value > 0.0
  {
    match condition
    case "hypertension" => if f == SystolicBP then Some(1.15) else if f == DiastolicBP then Some(1.12) else None
    case "diabetes" => if f == Glucose then Some(1.4) else if f == Temperature then Some(1.02) else None
    case "copd" => if f == OxygenLevel then Some(0.95) else if f == RespiratoryRate then Some(1.25) else None
    case "cardiac_arrhythmia" => if f == HeartRate then Some(1.0) else None
    case "asthma" => if f == OxygenLevel then Some(0.98) else if f == RespiratoryRate then Some(1.15) else None
    case _ => None
  }

  /** The factor one condition applies to `f`: its table entry, or 1. */
  function ModifierFactor(condition: string, f: VitalField): (m: real)
    ensures m > 0.0
  {
    match ConditionModifier(condition, f) case Some(m) => m case None => 1.0
  }

  /** The factor each listed condition applies to `f`, in list order. */
  function Factors(conditions: seq<string>, f: VitalField): (fs: seq<real>)
    ensures |fs| == |conditions|
    ensures forall i :: 0 <= i < |fs| ==> fs[i] == ModifierFactor(conditions[i], f) && fs[i] > 0.0
  {
    seq(|conditions|, i requires 0 <= i < |conditions| => ModifierFactor(conditions[i], f))
  }

  /** `value` multiplied by each factor in turn. */
  function Scaled(value: real, fs: seq<real>): real
    decreases |fs|
  {
    if fs == [] then value else Scaled(value * fs[0], fs[1..])
  }

  /** The product of a sequence of factors. */
  function Product(fs: seq<real>): real
    decreases |fs|
  {
    if fs == [] then 1.0 else fs[0] * Product(fs[1..])
  }

  /** `value` after each listed condition's factor, applied left to right. */
  function ConditionsApplied(value: real, conditions: seq<string>, f: VitalField): real {
    Scaled(value, Factors(conditions, f))
  }

  /** Multiplies `value` by the factor of every listed condition that defines `vital`. */
  method ApplyConditionModifiers(value: real, vital: VitalField, conditions: seq<string>) returns (modified: real)
    ensures modified == ConditionsApplied(value, conditions, vital)
  {
    modified := value;
    for i := 0 to |conditions|
      invariant ConditionsApplied(modified, conditions[i..], vital) == ConditionsApplied(value, conditions, vital)
    {
      var next := ApplyModifier(modified, conditions[i], vital);
      ConditionsStep(modified, conditions, i, vital);
      modified := next;
    }
    assert conditions[|conditions|..] == [];
  }

  /** Applying the conditions from position `i` is applying the `i`-th one, then the rest. */
  lemma ConditionsStep(value: real, conditions: seq<string>, i: nat, vital: VitalField)
    requires i < |conditions|
    ensures ConditionsApplied(value, conditions[i..], vital)
         == ConditionsApplied(value * ModifierFactor(conditions[i], vital), conditions[i + 1..], vital)
  {
    var fs := Factors(conditions[i..], vital);
    assert fs[0] == ModifierFactor(conditions[i], vital);
    assert fs[1..] == Factors(conditions[i + 1..], vital);
  }

  /** One condition's modifier, when it defines one for `vital`. */
  method ApplyModifier(value: real, condition: string, vital: VitalField) returns (modified: real)
    ensures modified == value * ModifierFactor(condition, vital)
  {
    var m := ConditionModifier(condition, vital);
    modified := value;
    if m.Some? {
      modified := value * m.value;
    }
  }

  /** Multiplying in turn is multiplying by the product. */
  lemma {:induction false} ScaledIsProduct(value: real, fs: seq<real>)
    decreases |fs|
    ensures Scaled(value, fs) == value * Product(fs)
  {
    if fs != [] {
      ScaledIsProduct(value * fs[0], fs[1..]);
      ScaleStep(value, fs[0], Product(fs[1..]), Scaled(value * fs[0], fs[1..]), Product(fs));
    }
  }

  /** Multiplying by `m` and then by `p` is multiplying by `m * p`. */
  lemma ScaleStep(value: real, m: real, p: real, applied: real, product: real)
    requires applied == value * m * p && product == m * p
    ensures applied == value * product
  {
  }

  /** The conditions multiply `value` by the product of the factors of every listed condition. */
  lemma ConditionsScale(value: real, conditions: seq<string>, f: VitalField)
    ensures ConditionsApplied(value, conditions, f) == value * Product(Factors(conditions, f))
  {
    ScaledIsProduct(value, Factors(conditions, f));
  }

  /** Factors of 1 change nothing. */
  lemma {:induction false} ScaledByOnes(value: real, fs: seq<real>)
    decreases |fs|
    requires forall i :: 0 <= i < |fs| ==> fs[i] == 1.0
    ensures Scaled(value, fs) == value
  {
    if fs != [] {
      ScaledByOnes(value, fs[1..]);
    }
  }

  /** Conditions the table does not know, or that do not define the vital, leave it unchanged. */
  lemma ConditionsNeutral(value: real, conditions: seq<string>, f: VitalField)
    requires forall i :: 0 <= i < |conditions| ==> ConditionModifier(conditions[i], f).None?
    ensures ConditionsApplied(value, conditions, f) == value
  {
    ScaledByOnes(value, Factors(conditions, f));
  }

  lemma MulPos(a: real, b: real)
    requires a > 0.0 && b > 0.0
    ensures a * b > 0.0
  {
  }

  lemma MulAssoc(a: real, b: real, c: real)
    ensures a * b * c == a * (b * c)
  {
  }

  /** Positive factors keep a positive value positive. */
  lemma {:induction false} ScaledKeepsSign(value: real, fs: seq<real>)
    decreases |fs|
    requires value > 0.0 && forall i :: 0 <= i < |fs| ==> fs[i] > 0.0
    ensures Scaled(value, fs) > 0.0
  {
    if fs != [] {
      MulPos(value, fs[0]);
      ScaledKeepsSign(value * fs[0], fs[1..]);
    }
  }

  /** Every factor is positive, so condition modifiers never flip or zero a positive vital. */
  lemma ConditionsKeepSign(value: real, conditions: seq<string>, f: VitalField)
    requires value > 0.0
    ensures ConditionsApplied(value, conditions, f) > 0.0
  {
    ScaledKeepsSign(value, Factors(conditions, f));
  }

  /** Every vital after its condition modifiers. */
  function ConditionsAppliedAll(v: Vitals, conditions: seq<string>): (r: Vitals)
    ensures forall f :: r.Get(f) == ConditionsApplied(v.Get(f), conditions, f)
  {
    Vitals(
      ConditionsApplied(v.heartRate, conditions, HeartRate),
      ConditionsApplied(v.oxygenLevel, conditions, OxygenLevel),
      ConditionsApplied(v.temperature, conditions, Temperature),
      ConditionsApplied(v.systolicBP, conditions, SystolicBP),
      ConditionsApplied(v.diastolicBP, conditions, DiastolicBP),
      ConditionsApplied(v.respiratoryRate, conditions, RespiratoryRate),
      ConditionsApplied(v.glucose, conditions, Glucose))
  }

  /** The condition loop of generate_patient_vitals: every vital gets its condition modifiers. */
  method ApplyAllConditionModifiers(vitals: Vitals, conditions: seq<string>) returns (r: Vitals)
    ensures r == ConditionsAppliedAll(vitals, conditions)
  {
    r := vitals;
    for i := 0 to |AllFields|
      invariant forall f :: r.Get(f) == if Index(f) < i then ConditionsApplied(vitals.Get(f), conditions, f) else vitals.Get(f)
    {
      var f := AllFields[i];
      IndexOfPosition(i);
      var m := ApplyConditionModifiers(r.Get(f), f, conditions);
      r := r.Set(f, m);
    }
    VitalsExtensional(r, ConditionsAppliedAll(vitals, conditions));
  }

  // ---------------------------------------------------------------------------
  // Medication effects (check_medication_effects)
  // ---------------------------------------------------------------------------

  /** A known medication: how long it acts (minutes) and its multiplier per vital. */
  datatype MedicationEffect = MedicationEffect(duration: real, adjustments: seq<(VitalField, real)>)

  function MedicationEffectOf(med: string): (e: Option<MedicationEffect>)
    ensures e.Some? ==> e.value.duration > 0.0
  {
    match med
    case "lisinopril" => Some(MedicationEffect(480.0, [(SystolicBP, 0.9), (DiastolicBP, 0.85)]))
    case "metformin" => Some(MedicationEffect(360.0, [(Glucose, 0.8)]))
    case "albuterol" => Some(MedicationEffect(240.0, [(OxygenLevel, 1.03), (HeartRate, 1.1)]))
    case "digoxin" => Some(MedicationEffect(1440.0, [(HeartRate, 0.9)]))
    case _ => None
  }

  /** `max(0.3, 1 - elapsed / duration)`: the fraction of the effect still active. */
  function Strength(elapsed: real, duration: real): (s: real)
    requires duration > 0.0
    ensures s >= 0.3
    ensures elapsed >= 0.0 ==> s <= 1.0
  {
    assert elapsed >= 0.0 ==> elapsed / duration >= 0.0;
    var linear := 1.0 - elapsed / duration;
    if 0.3 > linear then 0.3 else linear
  }

  /** The effect fades as time passes: a later dose time never gives a stronger effect. */
  lemma StrengthDecays(e1: real, e2: real, duration: real)
    requires duration > 0.0 && e1 <= e2
    ensures Strength(e2, duration) <= Strength(e1, duration)
  {
    assert (e2 - e1) / duration >= 0.0;
    assert e2 / duration - e1 / duration == (e2 - e1) / duration;
  }

  lemma MulNonPos(d: real, s: real)
    requires d <= 0.0 && s >= 0.0
    ensures d * s <= 0.0
  {
  }

  lemma MulNonNeg(d: real, s: real)
    requires (d >= 0.0 && s >= 0.0) || (d <= 0.0 && s <= 0.0)
    ensures d * s >= 0.0
  {
  }

  /** `d * s` lies between `d` and 0 when `s` is in [0, 1]. */
  lemma ScaleBetween(d: real, s: real)
    ensures 0.0 <= s <= 1.0 && d <= 0.0 ==> d <= d * s <= 0.0
    ensures 0.0 <= s <= 1.0 && d >= 0.0 ==> 0.0 <= d * s <= d
  {
    if 0.0 <= s <= 1.0 {
      assert d * s - d == d * (s - 1.0);
      if d <= 0.0 {
        MulNonPos(d, s);
        MulNonNeg(d, s - 1.0);
      } else {
        MulNonNeg(d, s);
        MulNonPos(s - 1.0, d);
      }
    }
  }

  /** `(adjustment - 1) * strength + 1`: the full adjustment scaled toward 1 by the strength. */
  function AppliedFactor(adjustment: real, strength: real): real {
    (adjustment - 1.0) * strength + 1.0
  }

  /** With a strength in [0, 1] the applied factor lies between the full adjustment and 1. */
  lemma AppliedFactorBetween(adjustment: real, strength: real)
    requires 0.0 <= strength <= 1.0
    ensures adjustment <= 1.0 ==> adjustment <= AppliedFactor(adjustment, strength) <= 1.0
    ensures adjustment >= 1.0 ==> 1.0 <= AppliedFactor(adjustment, strength) <= adjustment
  {
    var d := adjustment - 1.0;
    assert AppliedFactor(adjustment, strength) == d * strength + 1.0;
    ScaleBetween(d, strength);
    if d <= 0.0 {
      assert d <= d * strength <= 0.0;
    } else {
      assert 0.0 <= d * strength <= d;
    }
  }

  /** Each adjustment of a medication with its factor scaled toward 1 by the strength. */
  function Decayed(adjustments: seq<(VitalField, real)>, strength: real): (d: seq<(VitalField, real)>)
    ensures |d| == |adjustments|
    ensures forall i :: 0 <= i < |d| ==> d[i] == (adjustments[i].0, AppliedFactor(adjustments[i].1, strength))
  {
    seq(|adjustments|, i requires 0 <= i < |adjustments| => (adjustments[i].0, AppliedFactor(adjustments[i].1, strength)))
  }

  /** The vitals after each (vital, factor) pair multiplies its vital by its factor, in order. */
  function Multiplied(vitals: Vitals, factors: seq<(VitalField, real)>): Vitals
    decreases |factors|
  {
    if factors == [] then vitals
    else
      var f := factors[0].0;
      Multiplied(vitals.Set(f, vitals.Get(f) * factors[0].1), factors[1..])
  }

  /** The vitals after each adjustment multiplies its vital by its decayed factor, in order. */
  function AdjustmentsApplied(vitals: Vitals, adjustments: seq<(VitalField, real)>, strength: real): Vitals {
    Multiplied(vitals, Decayed(adjustments, strength))
  }

  /** The vitals after one medication, if it is known and still acting. */
  function MedicationApplied(vitals: Vitals, med: string, elapsed: real): Vitals {
    EffectApplied(vitals, MedicationEffectOf(med), elapsed)
  }

  /** The vitals after an effect looked up in the table, if there is one and it is still acting. */
  function EffectApplied(vitals: Vitals, effect: Option<MedicationEffect>, elapsed: real): Vitals
    requires effect.Some? ==> effect.value.duration > 0.0
  {
    match effect
    case None => vitals
    case Some(e) =>
      if elapsed < e.duration then AdjustmentsApplied(vitals, e.adjustments, Strength(elapsed, e.duration)) else vitals
  }

  /** The vitals after every listed medication, in order. */
  function MedicationsApplied(vitals: Vitals, meds: seq<string>, elapsed: real): Vitals
    decreases |meds|
  {
    if meds == [] then vitals else MedicationsApplied(MedicationApplied(vitals, meds[0], elapsed), meds[1..], elapsed)
  }

  /** Multiplies each vital an active medication names by its decayed adjustment. */
  method ApplyAdjustments(vitals: Vitals, adjustments: seq<(VitalField, real)>, strength: real) returns (r: Vitals)
    ensures r == AdjustmentsApplied(vitals, adjustments, strength)
  {
    ghost var factors := Decayed(adjustments, strength);
    r := vitals;
    for j := 0 to |adjustments|
      invariant Multiplied(r, factors[j..]) == Multiplied(vitals, factors)
    {
      assert factors[j..][1..] == factors[j + 1..];
      var vital := adjustments[j].0;
      var adjustmentValue := (adjustments[j].1 - 1.0) * strength + 1.0;
      assert factors[j..][0] == (vital, adjustmentValue);
      r := r.Set(vital, r.Get(vital) * adjustmentValue);
    }
    assert factors[|adjustments|..] == [];
  }

  /** Applies every active medication's decayed multiplier to the vitals it names. */
  method CheckMedicationEffects(vitals: Vitals, medications: seq<string>, elapsed: real) returns (r: Vitals)
    ensures r == MedicationsApplied(vitals, medications, elapsed)
  {
    r := vitals;
    for i := 0 to |medications|
      invariant MedicationsApplied(r, medications[i..], elapsed) == MedicationsApplied(vitals, medications, elapsed)
    {
      assert medications[i..][1..] == medications[i + 1..];
      var med := medications[i];
      var effect := MedicationEffectOf(med);
      if effect.Some? && elapsed < effect.value.duration {
        var strength := if 0.3 > 1.0 - elapsed / effect.value.duration then 0.3 else 1.0 - elapsed / effect.value.duration;
        r := ApplyAdjustments(r, effect.value.adjustments, strength);
      }
    }
  }

  /** Medications the table does not know, or taken at least their duration ago, change nothing. */
  lemma {:induction false} InactiveMedicationsAreNeutral(vitals: Vitals, meds: seq<string>, elapsed: real)
    decreases |meds|
    requires forall i :: 0 <= i < |meds| ==>
      MedicationEffectOf(meds[i]).None? || elapsed >= MedicationEffectOf(meds[i]).value.duration
    ensures MedicationsApplied(vitals, meds, elapsed) == vitals
  {
    if meds != [] {
      InactiveMedicationsAreNeutral(vitals, meds[1..], elapsed);
    }
  }

  /** Pairs that do not name `f` leave it alone. */
  lemma {:induction false} MultipliedUntouched(vitals: Vitals, factors: seq<(VitalField, real)>, f: VitalField)
    decreases |factors|
    requires forall i :: 0 <= i < |factors| ==> factors[i].0 != f
    ensures Multiplied(vitals, factors).Get(f) == vitals.Get(f)
  {
    if factors != [] {
      var g := factors[0].0;
      var next := vitals.Set(g, vitals.Get(g) * factors[0].1);
      assert next.Get(f) == vitals.Get(f);
      assert Multiplied(vitals, factors) == Multiplied(next, factors[1..]);
      MultipliedUntouched(next, factors[1..], f);
    }
  }

  /** When the pairs name each vital at most once, `f` is multiplied by its one pair's factor. */
  lemma {:induction false} MultipliedSingle(vitals: Vitals, factors: seq<(VitalField, real)>, k: nat)
    decreases |factors|
    requires forall i, j :: 0 <= i < j < |factors| ==> factors[i].0 != factors[j].0
    requires k < |factors|
    ensures Multiplied(vitals, factors).Get(factors[k].0) == vitals.Get(factors[k].0) * factors[k].1
  {
    var f := factors[k].0;
    var g := factors[0].0;
    var next := vitals.Set(g, vitals.Get(g) * factors[0].1);
    var rest := factors[1..];
    assert factors != [];
    assert Multiplied(vitals, factors) == Multiplied(vitals.Set(factors[0].0, vitals.Get(factors[0].0) * factors[0].1), factors[1..]);
    assert next == vitals.Set(factors[0].0, vitals.Get(factors[0].0) * factors[0].1);
    assert Multiplied(vitals, factors) == Multiplied(next, rest);
    if k == 0 {
      MultipliedUntouched(next, rest, f);
    } else {
      assert g != f && next.Get(f) == vitals.Get(f);
      assert rest[k - 1] == factors[k];
      MultipliedSingle(next, rest, k - 1);
    }
  }

  /** An active medication multiplies each vital it names by a factor between its full
      adjustment and 1: part of the way toward the full effect, never past it, never the other way. */
  lemma ActiveMedicationScalesNamedVital(vitals: Vitals, med: string, e: MedicationEffect, elapsed: real, k: nat)
    requires MedicationEffectOf(med) == Some(e)
    requires 0.0 <= elapsed < e.duration && k < |e.adjustments|
    ensures var f := e.adjustments[k].0;
      var full := e.adjustments[k].1;
      var factor := AppliedFactor(full, Strength(elapsed, e.duration));
      && MedicationApplied(vitals, med, elapsed).Get(f) == vitals.Get(f) * factor
      && (full <= factor <= 1.0 || 1.0 <= factor <= full)
  {
    ActiveEffectScalesNamedVital(vitals, e, elapsed, k);
  }

  /** The same for any effect record whose adjustments name each vital at most once. */
  lemma ActiveEffectScalesNamedVital(vitals: Vitals, e: MedicationEffect, elapsed: real, k: nat)
    requires e.duration > 0.0 && 0.0 <= elapsed < e.duration
    requires forall i, j :: 0 <= i < j < |e.adjustments| ==> e.adjustments[i].0 != e.adjustments[j].0
    requires k < |e.adjustments|
    ensures var f := e.adjustments[k].0;
      var full := e.adjustments[k].1;
      var factor := AppliedFactor(full, Strength(elapsed, e.duration));
      && EffectApplied(vitals, Some(e), elapsed).Get(f) == vitals.Get(f) * factor
      && (full <= factor <= 1.0 || 1.0 <= factor <= full)
  {
    AdjustmentScalesNamedVital(vitals, e.adjustments, Strength(elapsed, e.duration), k);
  }


  /** With a strength in [0, 1], each adjustment moves its vital by a factor between the full
      adjustment and 1. */
  lemma AdjustmentScalesNamedVital(vitals: Vitals, adjustments: seq<(VitalField, real)>, s: real, k: nat)
    requires forall i, j :: 0 <= i < j < |adjustments| ==> adjustments[i].0 != adjustments[j].0
    requires 0.0 <= s <= 1.0 && k < |adjustments|
    ensures var f := adjustments[k].0;
      var full := adjustments[k].1;
      && AdjustmentsApplied(vitals, adjustments, s).Get(f) == vitals.Get(f) * AppliedFactor(full, s)
      && (full <= AppliedFactor(full, s) <= 1.0 || 1.0 <= AppliedFactor(full, s) <= full)
  {
    var d := Decayed(adjustments, s);
    assert forall i, j :: 0 <= i < j < |d| ==> d[i].0 != d[j].0;
    MultipliedSingle(vitals, d, k);
    AppliedFactorBetween(adjustments[k].1, s);
  }


  /** A medication leaves every vital its table entry does not name alone. */
  lemma MedicationLeavesOtherVitals(vitals: Vitals, med: string, elapsed: real, f: VitalField)
    requires MedicationEffectOf(med).Some?
    requires forall k :: 0 <= k < |MedicationEffectOf(med).value.adjustments| ==>
      MedicationEffectOf(med).value.adjustments[k].0 != f
    ensures MedicationApplied(vitals, med, elapsed).Get(f) == vitals.Get(f)
  {
    var e := MedicationEffectOf(med).value;
    if elapsed < e.duration {
      MultipliedUntouched(vitals, Decayed(e.adjustments, Strength(elapsed, e.duration)), f);
    }
  }

  // ---------------------------------------------------------------------------
  // Correlations (correlate_vitals) and emergency scenarios
  // ---------------------------------------------------------------------------

  /** `(random.random() - 0.5) * 40`: the irregular-beat jitter, from -20 (at a zero draw)
      up to but excluding 20. */
  function ArrhythmiaJitter(r: real): (j: real)
    requires 0.0 <= r < 1.0
    ensures -20.0 <= j < 20.0
  {
    (r - 0.5) * 40.0
  }

  /** The heart rate after the fever (+8 per degree above 37) and hypoxia (+2 per point of O2
      below 95) compensations. */
  function CompensatedHeartRate(v: Vitals): (h: real)
    ensures h >= v.heartRate + (v.temperature - 37.0) * 8.0
    ensures v.oxygenLevel >= 95.0 ==> h == v.heartRate + (v.temperature - 37.0) * 8.0
  {
    v.heartRate + (v.temperature - 37.0) * 8.0 + (if v.oxygenLevel < 95.0 then (95.0 - v.oxygenLevel) * 2.0 else 0.0)
  }

  lemma DivSign(x: real, b: real)
    ensures b > 0.0 ==> (x / b >= 0.0 <==> x >= 0.0)
  {
    if b <= 0.0 {
    } else if x / b < 0.0 {
      assert x == (x / b) * b;
      MulNonPos(x / b, b);
    } else {
      assert x == (x / b) * b;
      MulNonNeg(x / b, b);
    }
  }

  /** Fever and hypoxia raise the heart rate; both pressures follow the heart rate's deviation
      from baseline (systolic twice as far as diastolic); an arrhythmia adds jitter 30% of the time
      (`r1` decides it, `r2` sizes it); the other vitals are untouched. */
  function CorrelateVitals(vitals: Vitals, baselineHeartRate: real, conditions: seq<string>, r1: real, r2: real)
    : (r: Vitals)
    requires baselineHeartRate != 0.0
    requires 0.0 <= r1 < 1.0 && 0.0 <= r2 < 1.0
    ensures r.oxygenLevel == vitals.oxygenLevel && r.temperature == vitals.temperature
    ensures r.respiratoryRate == vitals.respiratoryRate && r.glucose == vitals.glucose
    ensures var h := CompensatedHeartRate(vitals);
      && h - 20.0 <= r.heartRate < h + 20.0
      && (!("cardiac_arrhythmia" in conditions && r1 < 0.3) ==> r.heartRate == h)
    ensures r.systolicBP - vitals.systolicBP == 2.0 * (r.diastolicBP - vitals.diastolicBP)
    ensures baselineHeartRate > 0.0 ==>
      (CompensatedHeartRate(vitals) >= baselineHeartRate <==> r.diastolicBP >= vitals.diastolicBP)
  {
    var h := CompensatedHeartRate(vitals);
    var deviation := (h - baselineHeartRate) / baselineHeartRate;
    DivSign(h - baselineHeartRate, baselineHeartRate);
    var jitter := if "cardiac_arrhythmia" in conditions && r1 < 0.3 then ArrhythmiaJitter(r2) else 0.0;
    vitals.(heartRate := h + jitter,
            systolicBP := vitals.systolicBP + deviation * 20.0,
            diastolicBP := vitals.diastolicBP + deviation * 10.0)
  }

  datatype Emergency = CardiacEvent | RespiratoryDistress | Sepsis

  /** A 0.1% chance (draw `r`) of an emergency, chosen uniformly by index `choice`. */
  function GenerateEmergencyScenario(r: real, choice: nat): (e: Option<Emergency>)
    requires 0.0 <= r < 1.0 && choice < 3
    ensures e.Some? <==> r < 0.001
  {
    if r < 0.001 then Some([CardiacEvent, RespiratoryDistress, Sepsis][choice]) else None
  }

  /** `emergency_effects[scenario].get(vital)`: the multiplier an emergency applies to a vital, 1 where it names none. */
  function EmergencyMultiplier(e: Emergency, f: VitalField): real {
    match (e, f)
    case (CardiacEvent, HeartRate) => 0.3
    case (CardiacEvent, OxygenLevel) => 0.85
    case (CardiacEvent, SystolicBP) => 0.6
    case (RespiratoryDistress, OxygenLevel) => 0.82
    case (RespiratoryDistress, RespiratoryRate) => 2.0
    case (RespiratoryDistress, HeartRate) => 1.4
    case (Sepsis, Temperature) => 1.08
    case (Sepsis, HeartRate) => 1.6
    case (Sepsis, SystolicBP) => 0.7
    case _ => 1.0
  }

  /** The vitals after an emergency: each vital scaled by its table entry; diastolic
      pressure and glucose never change. */
  function EmergencyApplied(v: Vitals, e: Emergency): (r: Vitals)
    ensures forall f :: r.Get(f) == v.Get(f) * EmergencyMultiplier(e, f)
    ensures r.diastolicBP == v.diastolicBP && r.glucose == v.glucose
  {
    match e
    case CardiacEvent => v.(heartRate := v.heartRate * 0.3, oxygenLevel := v.oxygenLevel * 0.85, systolicBP := v.systolicBP * 0.6)
    case RespiratoryDistress =>
      v.(oxygenLevel := v.oxygenLevel * 0.82, respiratoryRate := v.respiratoryRate * 2.0, heartRate := v.heartRate * 1.4)
    case Sepsis => v.(temperature := v.temperature * 1.08, heartRate := v.heartRate * 1.6, systolicBP := v.systolicBP * 0.7)
  }

  // ---------------------------------------------------------------------------
  // Hard bounds (the clamp blocks of generate_patient_vitals and generate_environmental_data)
  // ---------------------------------------------------------------------------

  /** The physiological limits every emitted reading respects. */
  predicate VitalsInBounds(v: Vitals) {
    && 30.0 <= v.heartRate <= 200.0
    && 70.0 <= v.oxygenLevel <= 100.0
    && 32.0 <= v.temperature <= 42.0
    && 60.0 <= v.systolicBP <= 250.0
    && 40.0 <= v.diastolicBP <= 150.0
    && 8.0 <= v.respiratoryRate <= 50.0
    && 40.0 <= v.glucose <= 600.0
  }

  function ClampVitals(v: Vitals): (r: Vitals)
    ensures VitalsInBounds(r)
    ensures VitalsInBounds(v) ==> r == v
  {
    Vitals(
      heartRate := Clamp(30.0, 200.0, v.heartRate),
      oxygenLevel := Clamp(70.0, 100.0, v.oxygenLevel),
      temperature := Clamp(32.0, 42.0, v.temperature),
      systolicBP := Clamp(60.0, 250.0, v.systolicBP),
      diastolicBP := Clamp(40.0, 150.0, v.diastolicBP),
      respiratoryRate := Clamp(8.0, 50.0, v.respiratoryRate),
      glucose := Clamp(40.0, 600.0, v.glucose))
  }

  /** A room reading, as the environmental cache holds it. */
  datatype Environment = Environment(
    temperature: real,
    humidity: real,
    airQuality: real,
    lightLevel: real,
    noiseLevel: real,
    pressure: real,
    co2Level: real)

  predicate EnvironmentInBounds(e: Environment) {
    && 18.0 <= e.temperature <= 28.0
    && 30.0 <= e.humidity <= 70.0
    && 70.0 <= e.airQuality <= 100.0
    && 0.0 <= e.lightLevel <= 100.0
    && 20.0 <= e.noiseLevel <= 80.0
    && 1010.0 <= e.pressure <= 1020.0
    && 350.0 <= e.co2Level <= 800.0
  }

  function ClampEnvironment(e: Environment): (r: Environment)
    ensures EnvironmentInBounds(r)
    ensures EnvironmentInBounds(e) ==> r == e
  {
    Environment(
      temperature := Clamp(18.0, 28.0, e.temperature),
      humidity := Clamp(30.0, 70.0, e.humidity),
      airQuality := Clamp(70.0, 100.0, e.airQuality),
      lightLevel := Clamp(0.0, 100.0, e.lightLevel),
      noiseLevel := Clamp(20.0, 80.0, e.noiseLevel),
      pressure := Clamp(1010.0, 1020.0, e.pressure),
      co2Level := Clamp(350.0, 800.0, e.co2Level))
  }

  /** Clamping is idempotent: a clamped reading is already within its bounds. */
  lemma ClampIsIdempotent(v: Vitals, e: Environment)
    ensures ClampVitals(ClampVitals(v)) == ClampVitals(v)
    ensures ClampEnvironment(ClampEnvironment(e)) == ClampEnvironment(e)
  {
  }

  // ---------------------------------------------------------------------------
  // Timestamp sanitising (sanitize_timestamp)
  // ---------------------------------------------------------------------------

  /** `re.sub(r'[.:]', '-', s)` */
  function ReplaceDotsAndColons(s: string): (r: string)
    ensures |r| == |s|
    ensures forall i :: 0 <= i < |s| ==> r[i] == (if s[i] == '.' || s[i] == ':' then '-' else s[i])
  {
    if s == [] then [] else [if s[0] == '.' || s[0] == ':' then '-' else s[0]] + ReplaceDotsAndColons(s[1..])
  }

  predicate FirebaseInvalid(c: char) {
    c == '#' || c == '$' || c == '[' || c == ']'
  }

  /** `re.sub(r'[#\$\[\]]', '', s)` */
  function StripFirebaseInvalid(s: string): (r: string)
    ensures |r| <= |s|
    ensures forall i :: 0 <= i < |r| ==> !FirebaseInvalid(r[i]) && r[i] in s
  {
    if s == [] then []
    else if FirebaseInvalid(s[0]) then StripFirebaseInvalid(s[1..])
    else [s[0]] + StripFirebaseInvalid(s[1..])
  }

  /** A Firebase-safe key: no `.`, `:`, `#`, `$`, `[` or `]`. */
  predicate SafeKey(s: string) {
    forall i :: 0 <= i < |s| ==> s[i] != '.' && s[i] != ':' && !FirebaseInvalid(s[i])
  }

  function SanitizeTimestamp(timestamp: string): (r: string)
    ensures SafeKey(r)
    ensures |r| <= |timestamp|
  {
    var replaced := ReplaceDotsAndColons(timestamp);
    var r := StripFirebaseInvalid(replaced);
    assert forall i :: 0 <= i < |r| ==> r[i] != '.' && r[i] != ':' by {
      forall i | 0 <= i < |r| ensures r[i] != '.' && r[i] != ':' {
        var k :| 0 <= k < |replaced| && replaced[k] == r[i];
      }
    }
    r
  }

  /** The characters sanitising leaves in place: everything but `.:-#$[]`. */
  function Kept(s: string): string {
    if s == [] then []
    else if s[0] in ".:-#$[]" then Kept(s[1..])
    else [s[0]] + Kept(s[1..])
  }

  lemma {:induction false} KeptOfReplace(s: string)
    ensures Kept(ReplaceDotsAndColons(s)) == Kept(s)
  {
    if s != [] {
      KeptOfReplace(s[1..]);
      assert ReplaceDotsAndColons(s)[1..] == ReplaceDotsAndColons(s[1..]);
    }
  }

  lemma {:induction false} KeptOfStrip(s: string)
    ensures Kept(StripFirebaseInvalid(s)) == Kept(s)
  {
    if s != [] {
      KeptOfStrip(s[1..]);
      if !FirebaseInvalid(s[0]) {
        assert ([s[0]] + StripFirebaseInvalid(s[1..]))[1..] == StripFirebaseInvalid(s[1..]);
      }
    }
  }

  /** Every character other than the rewritten ones survives, in the same order. */
  lemma SanitizeKeepsOtherCharacters(timestamp: string)
    ensures Kept(SanitizeTimestamp(timestamp)) == Kept(timestamp)
  {
    KeptOfStrip(ReplaceDotsAndColons(timestamp));
    KeptOfReplace(timestamp);
  }

  lemma {:induction false} ReplaceFixesSafe(s: string)
    requires forall i :: 0 <= i < |s| ==> s[i] != '.' && s[i] != ':'
    ensures ReplaceDotsAndColons(s) == s
  {
  }

  lemma {:induction false} StripFixesSafe(s: string)
    requires forall i :: 0 <= i < |s| ==> !FirebaseInvalid(s[i])
    ensures StripFirebaseInvalid(s) == s
  {
    if s != [] {
      StripFixesSafe(s[1..]);
    }
  }

  /** Sanitising twice is sanitising once. */
  lemma SanitizeIdempotent(timestamp: string)
    ensures SanitizeTimestamp(SanitizeTimestamp(timestamp)) == SanitizeTimestamp(timestamp)
  {
    var once := SanitizeTimestamp(timestamp);
    ReplaceFixesSafe(once);
    StripFixesSafe(once);
  }

  // ---------------------------------------------------------------------------
  // Profile conversion (convert_db_patient_to_simulation_format) and room type pick
  // ---------------------------------------------------------------------------

  /** `state_mapping.get(status.lower(), 'stable')`, with a missing status read as "stable". */
  function SimulationState(status: Option<string>): (state: string)
    ensures state in {"stable", "critical", "recovering", "deteriorating"}
    ensures status.Some? && Lower(status.value) == "improving" ==> state == "recovering"
    ensures status.Some? && Lower(status.value) in {"stable", "critical", "deteriorating"} ==> state == Lower(status.value)
    ensures status.None? || Lower(status.value) !in {"stable", "critical", "improving", "deteriorating"} ==> state == "stable"
  {
    var s := Lower(match status case Some(v) => v case None => "stable");
    assert status.None? ==> s == "stable";
    if s == "stable" then "stable"
    else if s == "critical" then "critical"
    else if s == "improving" then "recovering"
    else if s == "deteriorating" then "deteriorating"
    else "stable"
  }

  /** The room type an environmental sensor's room id implies: "icu" anywhere (any case)
      means ICU, else "isolation" means isolation, else general. */
  function SensorRoomType(roomId: string): (t: string)
    ensures t == "ICU" <==> Contains(Lower(roomId), "icu")
    ensures t == "isolation" <==> !Contains(Lower(roomId), "icu") && Contains(Lower(roomId), "isolation")
    ensures t == "general" <==> !Contains(Lower(roomId), "icu") && !Contains(Lower(roomId), "isolation")
  {
    if Contains(Lower(roomId), "icu") then "ICU"
    else if Contains(Lower(roomId), "isolation") then "isolation"
    else "general"
  }

  /** The baseline environment of each room type. */
  function RoomBaseline(roomType: string): Environment {
    match roomType
    case "ICU" => Environment(22.0, 45.0, 95.0, 75.0, 40.0, 1013.25, 400.0)
    case "isolation" => Environment(23.0, 50.0, 98.0, 70.0, 30.0, 1013.30, 380.0)
    case _ => Environment(21.5, 55.0, 92.0, 85.0, 45.0, 1013.15, 420.0)
  }

  /** The integer and real draws of get_initial_environmental_data. */
  datatype InitialEnvironmentDraws = InitialEnvironmentDraws(
    temperature: real, humidity: int, airQuality: int, lightLevel: int,
    noiseLevel: int, pressure: real, co2Level: int)

  predicate InitialEnvironmentDrawsValid(d: InitialEnvironmentDraws) {
    && -1.0 <= d.temperature <= 1.0 && -5 <= d.humidity <= 5 && -3 <= d.airQuality <= 3
    && -10 <= d.lightLevel <= 10 && -5 <= d.noiseLevel <= 5 && -0.5 <= d.pressure <= 0.5
    && -20 <= d.co2Level <= 20
  }

  /** The first reading of a sensor: its room type's baseline plus a small variation. */
  function InitialEnvironmentalData(roomId: string, d: InitialEnvironmentDraws): (e: Environment)
    requires InitialEnvironmentDrawsValid(d)
    ensures var b := RoomBaseline(SensorRoomType(roomId));
      && b.temperature - 1.0 <= e.temperature <= b.temperature + 1.0
      && b.co2Level - 20.0 <= e.co2Level <= b.co2Level + 20.0
      && b.pressure - 0.5 <= e.pressure <= b.pressure + 0.5
  {
    var b := RoomBaseline(SensorRoomType(roomId));
    Environment(
      temperature := b.temperature + d.temperature,
      humidity := b.humidity + d.humidity as real,
      airQuality := b.airQuality + d.airQuality as real,
      lightLevel := b.lightLevel + d.lightLevel as real,
      noiseLevel := b.noiseLevel + d.noiseLevel as real,
      pressure := b.pressure + d.pressure,
      co2Level := b.co2Level + d.co2Level as real)
  }

  /** The draws of one environmental tick; several ranges depend on the hour. */
  datatype EnvironmentDraws = EnvironmentDraws(
    temperature: real, humidity: real, airQuality: real, lightLevel: real,
    noiseLevel: real, pressure: real, co2Level: real)

  predicate BusyHour(hour: int) { 8 <= hour <= 20 }
  predicate ActiveHour(hour: int) { 6 <= hour <= 22 }

  predicate EnvironmentDrawsValid(hour: int, d: EnvironmentDraws) {
    && -0.3 <= d.temperature <= 0.3
    && -2.0 <= d.humidity <= 2.0
    && (if BusyHour(hour) then -2.0 <= d.airQuality <= 1.0 else -0.5 <= d.airQuality <= 2.0)
    && -5.0 <= d.lightLevel <= 5.0
    && (if ActiveHour(hour) then -3.0 <= d.noiseLevel <= 8.0 else -5.0 <= d.noiseLevel <= 2.0)
    && -0.1 <= d.pressure <= 0.1
    && (if BusyHour(hour) then -5.0 <= d.co2Level <= 15.0 else -10.0 <= d.co2Level <= 5.0)
  }

  function Abs(x: int): nat { if x < 0 then -x else x }

  /** The light level the room drifts toward at `hour`: bright by day, 20 at night. */
  function TargetLight(hour: int): (t: int)
    requires 0 <= hour < 24
    ensures ActiveHour(hour) ==> 108 <= t <= 124 && (t == 124 <==> hour == 14)
    ensures !ActiveHour(hour) ==> t == 20
  {
    if ActiveHour(hour) then 80 + (22 - Abs(hour - 14)) * 2 else 20
  }

  /** One unclamped environmental step: the temperature follows the circadian swing
      (`tempCircadian`, the `sin` term) plus jitter; humidity drops a point more when
      the temperature rose; the rest drift by their draws. */
  function NextEnvironment(current: Environment, hour: int, tempCircadian: real, d: EnvironmentDraws): (e: Environment)
    requires 0 <= hour < 24
    requires EnvironmentDrawsValid(hour, d)
    ensures e.pressure - current.pressure == d.pressure
    ensures e.temperature > current.temperature ==> e.humidity == current.humidity + d.humidity - 1.0
    ensures e.temperature <= current.temperature ==> e.humidity == current.humidity + d.humidity
  {
    var temperature := current.temperature + tempCircadian + d.temperature;
    var humidityChange := if temperature > current.temperature then d.humidity - 1.0 else d.humidity;
    var lightDiff := TargetLight(hour) as real - current.lightLevel;
    Environment(
      temperature := temperature,
      humidity := current.humidity + humidityChange,
      airQuality := current.airQuality + d.airQuality,
      lightLevel := current.lightLevel + lightDiff * 0.3 + d.lightLevel,
      noiseLevel := current.noiseLevel + d.noiseLevel,
      pressure := current.pressure + d.pressure,
      co2Level := current.co2Level + d.co2Level)
  }

  // ---------------------------------------------------------------------------
  // The simulator object and its per-tick methods
  // ---------------------------------------------------------------------------

  /** A patient as the simulator keeps it (`self.patients[patient_id]`). */
  datatype SimPatient = SimPatient(
    name: string,
    age: int,
    conditions: seq<string>,
    state: string,
    medications: seq<string>,
    baseline: Vitals,
    trends: map<VitalField, Trend>)

  /** A full trend table and a non-zero baseline heart rate. */
  predicate WellFormed(p: SimPatient) {
    && TrendTable(p.trends)
    && p.baseline.heartRate != 0.0
  }

  /** The patient record the store returns, reduced to the fields the conversion reads. */
  datatype DbPatient = DbPatient(
    name: Option<string>,
    age: Option<int>,
    conditions: seq<string>,
    medicationNames: seq<Option<string>>,
    status: Option<string>)

  /** The circadian multipliers of the hour (the cosine terms), as parameters. */
  datatype Circadian = Circadian(heartRate: real, temperature: real, bloodPressure: real)

  /** The draws of one vitals tick: one noise draw per vital (as a Vitals record),
      the arrhythmia draws, and the emergency draw and choice. */
  datatype TickDraws = TickDraws(noise: Vitals, arrhythmia: real, jitter: real, emergency: real, emergencyChoice: nat)

  predicate TickDrawsValid(d: TickDraws) {
    && (forall f :: 0.0 <= d.noise.Get(f) < 1.0)
    && 0.0 <= d.arrhythmia < 1.0 && 0.0 <= d.jitter < 1.0
    && 0.0 <= d.emergency < 1.0 && d.emergencyChoice < 3
  }

  /** Converts a patient record: defaults for missing fields, the state mapping,
      the baseline and freshly seeded trends. */
  method ConvertDbPatientToSimulationFormat(p: DbPatient) returns (s: SimPatient)
    ensures s.age == (match p.age case Some(a) => a case None => 50)
    ensures s.name == (match p.name case Some(n) => n case None => "Unknown Patient")
    ensures s.state == SimulationState(p.status)
    ensures s.conditions == p.conditions
    ensures |s.medications| == |p.medicationNames|
    ensures forall i :: 0 <= i < |s.medications| ==>
      s.medications[i] == (match p.medicationNames[i] case Some(n) => n case None => "")
    ensures s.baseline == Baseline(s.age, p.conditions)
    ensures TrendTable(s.trends)
    ensures forall f :: s.trends[f].magnitude == TrendMagnitude(f)
    ensures forall f :: (s.trends[f].direction, s.trends[f].duration) == TrendSeed(s.state, f)
  {
    var meds := seq(|p.medicationNames|, i requires 0 <= i < |p.medicationNames| =>
      match p.medicationNames[i] case Some(n) => n case None => "");
    var state := SimulationState(p.status);
    var age := match p.age case Some(a) => a case None => 50;
    var baseline := GetBaselineVitalsForPatient(age, p.conditions);
    var trends := InitializeTrendsForPatient(state, p.conditions);
    s := SimPatient(
      match p.name case Some(n) => n case None => "Unknown Patient",
      age, p.conditions, state, meds, baseline, trends);
  }

  /** The circadian multipliers applied to heart rate, temperature and both pressures. */
  function CircadianApplied(v: Vitals, c: Circadian): Vitals {
    v.(heartRate := v.heartRate * c.heartRate,
       temperature := v.temperature * c.temperature,
       systolicBP := v.systolicBP * c.bloodPressure,
       diastolicBP := v.diastolicBP * c.bloodPressure)
  }

  /** The first part of a tick, from the cached reading `start` and the patient as it was
      at the start of the tick: circadian rhythm, conditions, trends, medication and
      correlations, in that order. */
  function RoutineTick(start: Vitals, p: SimPatient, circadian: Circadian, elapsed: real, d: TickDraws): Vitals
    requires WellFormed(p) && TickDrawsValid(d)
  {
    var c := CircadianApplied(start, circadian);
    var m := ConditionsAppliedAll(c, p.conditions);
    var t := TrendsApplied(m, p.baseline, p.trends, p.state, d.noise);
    var med := MedicationsApplied(t, p.medications, elapsed);
    CorrelateVitals(med, p.baseline.heartRate, p.conditions, d.arrhythmia, d.jitter)
  }

  /** A whole tick before the clamp: the routine part, then a possible emergency. */
  function UnclampedTick(start: Vitals, p: SimPatient, circadian: Circadian, elapsed: real, d: TickDraws): Vitals
    requires WellFormed(p) && TickDrawsValid(d)
  {
    var v := RoutineTick(start, p, circadian, elapsed, d);
    match GenerateEmergencyScenario(d.emergency, d.emergencyChoice)
    case Some(e) => EmergencyApplied(v, e)
    case None => v
  }

  /** The routine part of `generate_patient_vitals`, step by step on a copy of the cached
      reading; also returns the patient's trends after `generate_trend` has counted them down. */
  method RoutineTickSteps(start: Vitals, patient: SimPatient, circadian: Circadian, elapsed: real, d: TickDraws)
    returns (vitals: Vitals, stepped: map<VitalField, Trend>)
    requires WellFormed(patient) && TickDrawsValid(d)
    ensures vitals == RoutineTick(start, patient, circadian, elapsed, d)
    ensures stepped == StepAll(patient.trends)
  {
    vitals := start;
    vitals := vitals.(heartRate := vitals.heartRate * circadian.heartRate);
    vitals := vitals.(temperature := vitals.temperature * circadian.temperature);
    vitals := vitals.(systolicBP := vitals.systolicBP * circadian.bloodPressure);
    vitals := vitals.(diastolicBP := vitals.diastolicBP * circadian.bloodPressure);
    assert vitals == CircadianApplied(start, circadian);
    vitals := ApplyAllConditionModifiers(vitals, patient.conditions);
    vitals, stepped := StepTrends(vitals, patient.baseline, patient.trends, patient.state, d.noise);
    vitals := CheckMedicationEffects(vitals, patient.medications, elapsed);
    vitals := CorrelateVitals(vitals, patient.baseline.heartRate, patient.conditions, d.arrhythmia, d.jitter);
  }

  /** `apply_emergency_scenario`: the emergency's multipliers, and the patient record
      (which the source mutates in place) returned with its state set to "critical". */
  method ApplyEmergencyScenario(vitals: Vitals, e: Emergency, patient: SimPatient) returns (r: Vitals, after: SimPatient)
    ensures r == EmergencyApplied(vitals, e)
    ensures after == patient.(state := "critical")
  {
    r := vitals;
    match e {
      case CardiacEvent =>
        r := r.(heartRate := r.heartRate * 0.3);
        r := r.(oxygenLevel := r.oxygenLevel * 0.85);
        r := r.(systolicBP := r.systolicBP * 0.6);
      case RespiratoryDistress =>
        r := r.(oxygenLevel := r.oxygenLevel * 0.82);
        r := r.(respiratoryRate := r.respiratoryRate * 2.0);
        r := r.(heartRate := r.heartRate * 1.4);
      case Sepsis =>
        r := r.(temperature := r.temperature * 1.08);
        r := r.(heartRate := r.heartRate * 1.6);
        r := r.(systolicBP := r.systolicBP * 0.7);
    }
    after := patient.(state := "critical");
  }

  /** The patient record after a tick: every trend counted down, and the state
      "critical" when the emergency draw fired. */
  function Ticked(p: SimPatient, d: TickDraws): (q: SimPatient)
    ensures q.name == p.name && q.age == p.age && q.conditions == p.conditions
    ensures q.medications == p.medications && q.baseline == p.baseline
    ensures q.trends.Keys == p.trends.Keys
  {
    p.(trends := StepAll(p.trends), state := if d.emergency < 0.001 then "critical" else p.state)
  }

  /** A tick for one patient on values: the routine part, a possible emergency, and the
      hard clamp; returns the clamped reading and the updated patient record. */
  method PatientTick(start: Vitals, patient: SimPatient, circadian: Circadian, elapsed: real, d: TickDraws)
    returns (reading: Vitals, after: SimPatient)
    requires WellFormed(patient) && TickDrawsValid(d)
    ensures reading == ClampVitals(UnclampedTick(start, patient, circadian, elapsed, d))
    ensures VitalsInBounds(reading)
    ensures after == Ticked(patient, d) && WellFormed(after)
  {
    var vitals, stepped := RoutineTickSteps(start, patient, circadian, elapsed, d);
    after := patient.(trends := stepped);
    var emergency := GenerateEmergencyScenario(d.emergency, d.emergencyChoice);
    if emergency.Some? {
      vitals, after := ApplyEmergencyScenario(vitals, emergency.value, after);
    }
    assert vitals == UnclampedTick(start, patient, circadian, elapsed, d);
    reading := ClampVitals(vitals);
  }

  class Simulator {
    var patients: map<string, SimPatient>
    var patientVitalsCache: map<string, Vitals>
    var environmentalSensors: map<string, string>
    var environmentalCache: map<string, Environment>

    /** Every patient is well formed. */
    ghost predicate Valid()
      reads this
    {
      forall pid | pid in patients :: WellFormed(patients[pid])
    }

    constructor ()
      ensures Valid()
      ensures patients == map[] && patientVitalsCache == map[]
      ensures environmentalSensors == map[] && environmentalCache == map[]
    {
      patients := map[];
      patientVitalsCache := map[];
      environmentalSensors := map[];
      environmentalCache := map[];
    }

    /** One tick for a patient: an uncached patient's cache entry starts as their baseline; then
        circadian rhythm, condition modifiers, trends, medication, correlations, a possible
        emergency, and the hard clamp. The clamped vitals replace the cache entry and are returned. */
    method GeneratePatientVitals(pid: string, circadian: Circadian, elapsed: real, d: TickDraws)
      returns (reading: Option<Vitals>)
      requires Valid() && TickDrawsValid(d)
      modifies this`patients, this`patientVitalsCache
      ensures Valid()
      ensures reading.Some? <==> pid in old(patients)
      ensures reading.None? ==> patients == old(patients) && patientVitalsCache == old(patientVitalsCache)
      ensures reading.Some? ==>
        var p := old(patients[pid]);
        var start := if pid in old(patientVitalsCache) then old(patientVitalsCache[pid]) else p.baseline;
        && reading.value == ClampVitals(UnclampedTick(start, p, circadian, elapsed, d))
        && patientVitalsCache == old(patientVitalsCache)[pid := reading.value]
        && patients == old(patients)[pid := Ticked(p, d)]
      ensures environmentalSensors == old(environmentalSensors) && environmentalCache == old(environmentalCache)
    {
      if pid !in patients {
        return None;
      }
      var patient := patients[pid];
      var start := if pid in patientVitalsCache then patientVitalsCache[pid] else patient.baseline;
      var vitals, after := PatientTick(start, patient, circadian, elapsed, d);
      patients := patients[pid := after];
      patientVitalsCache := patientVitalsCache[pid := vitals];
      reading := Some(vitals);
    }

    /** One tick for a room sensor: the unclamped step, then the hard clamp; the
        clamped reading replaces the cache entry and is returned. A sensor without
        a cache entry starts from its room type's initial data. */
    method GenerateEnvironmentalData(deviceId: string, hour: int, tempCircadian: real,
                                     init: InitialEnvironmentDraws, d: EnvironmentDraws)
      returns (reading: Option<Environment>)
      requires 0 <= hour < 24
      requires -1.5 <= tempCircadian <= 1.5
      requires InitialEnvironmentDrawsValid(init) && EnvironmentDrawsValid(hour, d)
      modifies this
      ensures reading.Some? <==> deviceId in environmentalSensors
      ensures environmentalSensors == old(environmentalSensors)
      ensures patients == old(patients) && patientVitalsCache == old(patientVitalsCache)
      ensures reading.None? ==> environmentalCache == old(environmentalCache)
      ensures reading.Some? ==>
        && EnvironmentInBounds(reading.value)
        && environmentalCache == old(environmentalCache)[deviceId := reading.value]
        && var start := if deviceId in old(environmentalCache) then old(environmentalCache[deviceId])
                        else InitialEnvironmentalData(environmentalSensors[deviceId], init);
           reading.value == ClampEnvironment(NextEnvironment(start, hour, tempCircadian, d))
    {
      if deviceId !in environmentalSensors {
        return None;
      }
      var roomId := environmentalSensors[deviceId];
      if deviceId !in environmentalCache {
        environmentalCache := environmentalCache[deviceId := InitialEnvironmentalData(roomId, init)];
      }
      var current := environmentalCache[deviceId];
      var env := NextEnvironment(current, hour, tempCircadian, d);
      env := ClampEnvironment(env);
      environmentalCache := environmentalCache[deviceId := env];
      reading := Some(env);
    }
  }
}
