/** The anomaly and hazard selection engine of app/data_simulation_v2.py: probability
    scaling by patient risk and room type, a "first draw that succeeds wins" pick in
    declaration order, the vitals and environment each anomaly or hazard produces,
    baselines and risk factors of a patient profile, normal readings, and the alert
    type and vitals of an alert.

    Every `random.*` draw is a parameter whose range is a precondition. */
module ScenarioSim {
  import opened Common
  import opened VitalSigns
  import VitalsSimulator

  // ---------------------------------------------------------------------------
  // Alert levels and anomaly types
  // ---------------------------------------------------------------------------

  datatype AlertLevel = Low | Medium | High | Critical

  /** The anomaly types in declaration order; the last three have no probability entry
      and are never drawn. */
  datatype AnomalyType =
    | CardiacArrhythmia | HypertensiveCrisis | HypotensiveShock | RespiratoryDistress
    | Hypoxemia | FeverSpike | Hypothermia | Hyperglycemia | Hypoglycemia
    | Tachycardia | Bradycardia
    | EnvironmentalHazard | PatientFallRisk | MedicationInteraction

  /** The keys of `scenario_probabilities`, in the order the dictionary holds them. */
  const ScenarioOrder: seq<AnomalyType> := [
    CardiacArrhythmia, HypertensiveCrisis, HypotensiveShock, RespiratoryDistress,
    Hypoxemia, FeverSpike, Hypothermia, Hyperglycemia, Hypoglycemia,
    Tachycardia, Bradycardia]

  /** The position of a drawable anomaly type in `ScenarioOrder`. */
  function ScenarioIndex(a: AnomalyType): (i: nat)
    requires a in ScenarioOrder
    ensures i < |ScenarioOrder| && ScenarioOrder[i] == a
  {
    match a
    case CardiacArrhythmia => 0
    case HypertensiveCrisis => 1
    case HypotensiveShock => 2
    case RespiratoryDistress => 3
    case Hypoxemia => 4
    case FeverSpike => 5
    case Hypothermia => 6
    case Hyperglycemia => 7
    case Hypoglycemia => 8
    case Tachycardia => 9
    case Bradycardia => 10
  }

  /** The unscaled chance of each drawable anomaly per tick. */
  function BaseProbability(a: AnomalyType): (p: real)
    ensures a in ScenarioOrder ==> 0.0 < p < 1.0
  {
    match a
    case CardiacArrhythmia => 0.02
    case HypertensiveCrisis => 0.015
    case HypotensiveShock => 0.01
    case RespiratoryDistress => 0.025
    case Hypoxemia => 0.02
    case FeverSpike => 0.03
    case Hypothermia => 0.008
    case Hyperglycemia => 0.025
    case Hypoglycemia => 0.015
    case Tachycardia => 0.03
    case Bradycardia => 0.02
    case EnvironmentalHazard | PatientFallRisk | MedicationInteraction => 0.0
  }

  /** What the simulator knows of a patient (`PatientProfile`). Conditions and state are
      stored lower-cased. */
  datatype PatientProfile = PatientProfile(
    patientId: string,
    age: int,
    conditions: seq<string>,
    medications: seq<string>,
    riskFactors: seq<RiskFactor>,
    baselineVitals: Vitals,
    currentState: string)

  // ---------------------------------------------------------------------------
  // Anomaly probabilities (should_trigger_anomaly)
  // ---------------------------------------------------------------------------

  /** The factor the patient's conditions put on one anomaly type. */
  function ConditionFactor(conditions: seq<string>, a: AnomalyType): (k: real)
    ensures k >= 1.0
  {
    match a
    case CardiacArrhythmia => if "heart_disease" in conditions then 3.0 else 1.0
    case Tachycardia | Bradycardia => if "heart_disease" in conditions then 2.0 else 1.0
    case HypertensiveCrisis => if "hypertension" in conditions then 4.0 else 1.0
    case Hyperglycemia => if "diabetes" in conditions then 5.0 else 1.0
    case Hypoglycemia => if "diabetes" in conditions then 3.0 else 1.0
    case RespiratoryDistress => if "copd" in conditions || "asthma" in conditions then 4.0 else 1.0
    case Hypoxemia => if "copd" in conditions || "asthma" in conditions then 3.0 else 1.0
    case _ => 1.0
  }

  /** The probability after the condition factors. */
  function ConditionScaled(conditions: seq<string>, a: AnomalyType): (p: real)
    ensures p >= BaseProbability(a)
  {
    var base, k := BaseProbability(a), ConditionFactor(conditions, a);
    assert base * k >= base by {
      assert base * k - base == base * (k - 1.0);
      assert base >= 0.0 && k - 1.0 >= 0.0;
    }
    base * k
  }

  /** The probability after the condition factors and the age factor. */
  function AgeScaled(profile: PatientProfile, a: AnomalyType): real {
    var p := ConditionScaled(profile.conditions, a);
    if profile.age > 70 then p * 1.5 else p
  }

  /** The adjusted probability of one anomaly type: base times the condition factors,
      times 1.5 past 70, times 2 in the critical state. Every factor is at least one. */
  function AdjustedProbability(profile: PatientProfile, a: AnomalyType): (p: real)
    ensures p >= BaseProbability(a)
    ensures profile.currentState == "critical" ==> p == 2.0 * AgeScaled(profile, a)
    ensures profile.age > 70 && profile.currentState != "critical" ==> p == 1.5 * ConditionScaled(profile.conditions, a)
  {
    var p := AgeScaled(profile, a);
    if profile.currentState == "critical" then p * 2.0 else p
  }

  /** The adjusted probabilities listed in `ScenarioOrder`. */
  function AnomalyProbabilities(profile: PatientProfile): (probs: seq<real>)
    ensures |probs| == |ScenarioOrder|
    ensures forall i :: 0 <= i < |ScenarioOrder| ==> probs[i] == AdjustedProbability(profile, ScenarioOrder[i])
  {
    seq(|ScenarioOrder|, i requires 0 <= i < |ScenarioOrder| => AdjustedProbability(profile, ScenarioOrder[i]))
  }

  /** The first position at or after `from` whose draw falls below its probability. */
  function FirstBelow(draws: seq<real>, probs: seq<real>, from: nat): (r: Option<nat>)
    requires |draws| == |probs| && from <= |draws|
    ensures r.Some? ==> from <= r.value < |draws| && draws[r.value] < probs[r.value]
    ensures r.Some? ==> forall j :: from <= j < r.value ==> draws[j] >= probs[j]
    ensures r.None? <==> forall j :: from <= j < |draws| ==> draws[j] >= probs[j]
    decreases |draws| - from
  {
    if from == |draws| then None
    else if draws[from] < probs[from] then Some(from)
    else FirstBelow(draws, probs, from + 1)
  }

  /** The first position is unique: any position that succeeds after only failures is it. */
  lemma FirstBelowIs(draws: seq<real>, probs: seq<real>, k: nat)
    requires |draws| == |probs| && k < |draws|
    requires draws[k] < probs[k]
    requires forall j :: 0 <= j < k ==> draws[j] >= probs[j]
    ensures FirstBelow(draws, probs, 0) == Some(k)
  {
    var r := FirstBelow(draws, probs, 0);
    assert r.Some?;
  }

  /** Raising every probability can only make a success come sooner. */
  lemma FirstBelowMonotone(draws: seq<real>, low: seq<real>, high: seq<real>)
    requires |draws| == |low| == |high|
    requires forall i :: 0 <= i < |low| ==> low[i] <= high[i]
    ensures FirstBelow(draws, low, 0).Some? ==> FirstBelow(draws, high, 0).Some?
    ensures FirstBelow(draws, low, 0).Some? ==> FirstBelow(draws, high, 0).value <= FirstBelow(draws, low, 0).value
  {
    var r := FirstBelow(draws, low, 0);
    if r.Some? {
      var k := r.value;
      assert draws[k] < high[k];
      var s := FirstBelow(draws, high, 0);
      assert s.Some?;
    }
  }

  /** The key at an optional position of a key order. */
  function PickAt<K>(order: seq<K>, i: Option<nat>): (r: Option<K>)
    requires i.Some? ==> i.value < |order|
    ensures r.Some? <==> i.Some?
    ensures r.Some? ==> r.value == order[i.value]
  {
    if i.Some? then Some(order[i.value]) else None
  }

  /** The anomaly `should_trigger_anomaly` returns for the given draws: the first type
      in declaration order whose draw is below its adjusted probability, else none. */
  function AnomalyTriggered(profile: PatientProfile, draws: seq<real>): (r: Option<AnomalyType>)
    requires |draws| == |ScenarioOrder|
    ensures r.None? <==> forall i :: 0 <= i < |ScenarioOrder| ==> draws[i] >= AdjustedProbability(profile, ScenarioOrder[i])
    ensures r.Some? ==>
      exists k :: (0 <= k < |ScenarioOrder| && r.value == ScenarioOrder[k]
        && draws[k] < AdjustedProbability(profile, ScenarioOrder[k])
        && forall j :: 0 <= j < k ==> draws[j] >= AdjustedProbability(profile, ScenarioOrder[j]))
  {
    PickAt(ScenarioOrder, FirstBelow(draws, AnomalyProbabilities(profile), 0))
  }

  /** No anomaly type is listed twice. */
  lemma ScenarioOrderDistinct()
    ensures forall i, j :: 0 <= i < j < |ScenarioOrder| ==> ScenarioOrder[i] != ScenarioOrder[j]
  {
    forall i, j | 0 <= i < j < |ScenarioOrder| ensures ScenarioOrder[i] != ScenarioOrder[j] {
      assert ScenarioIndex(ScenarioOrder[i]) == i && ScenarioIndex(ScenarioOrder[j]) == j;
    }
  }

  /** `for key in table: table[key] *= factor`, visiting the keys in `order`. */
  method ScaleAll<K>(table: map<K, real>, order: seq<K>, factor: real) returns (scaled: map<K, real>)
    requires forall k :: k in table <==> k in order
    requires forall i, j :: 0 <= i < j < |order| ==> order[i] != order[j]
    ensures scaled.Keys == table.Keys
    ensures forall k :: k in scaled ==> scaled[k] == table[k] * factor
  {
    scaled := table;
    for i := 0 to |order|
      invariant scaled.Keys == table.Keys
      invariant forall k :: k in scaled ==> scaled[k] == if k in order[..i] then table[k] * factor else table[k]
    {
      var k := order[i];
      assert order[..i + 1] == order[..i] + [k];
      scaled := scaled[k := scaled[k] * factor];
    }
    assert order[..|order|] == order;
  }

  /** The values of a table listed in a key order. */
  function InOrder<K>(table: map<K, real>, order: seq<K>): (probs: seq<real>)
    requires forall i :: 0 <= i < |order| ==> order[i] in table
    ensures |probs| == |order| && forall i :: 0 <= i < |order| ==> probs[i] == table[order[i]]
  {
    seq(|order|, i requires 0 <= i < |order| => table[order[i]])
  }

  /** `for key, p in table.items(): if random.random() < p: return key`, then `None`;
      `draws[i]` is the draw taken at the i-th key of `order`. */
  method FirstTriggered<K>(order: seq<K>, table: map<K, real>, draws: seq<real>) returns (r: Option<K>)
    requires |draws| == |order|
    requires forall i :: 0 <= i < |order| ==> order[i] in table
    ensures r == PickAt(order, FirstBelow(draws, InOrder(table, order), 0))
  {
    ghost var probs := InOrder(table, order);
    for i := 0 to |order|
      invariant forall j :: 0 <= j < i ==> draws[j] >= probs[j]
    {
      if draws[i] < table[order[i]] {
        FirstBelowIs(draws, probs, i);
        return Some(order[i]);
      }
    }
    return None;
  }

  /** Which condition block of `should_trigger_anomaly` touches an anomaly type: heart
      disease, hypertension, diabetes, then COPD or asthma; 4 for the types none touches. */
  function ConditionGroup(a: AnomalyType): nat {
    match a
    case CardiacArrhythmia | Tachycardia | Bradycardia => 0
    case HypertensiveCrisis => 1
    case Hyperglycemia | Hypoglycemia => 2
    case RespiratoryDistress | Hypoxemia => 3
    case _ => 4
  }

  /** One entry of the table once the first `k` condition blocks have run. */
  predicate EntryUpTo(adjusted: map<AnomalyType, real>, conditions: seq<string>, k: nat, a: AnomalyType) {
    a in adjusted
    && adjusted[a] == if ConditionGroup(a) < k then ConditionScaled(conditions, a) else BaseProbability(a)
  }

  /** The table once the first `k` condition blocks have run, entry by entry. */
  predicate ScaledUpTo(adjusted: map<AnomalyType, real>, conditions: seq<string>, k: nat) {
    && EntryUpTo(adjusted, conditions, k, CardiacArrhythmia)
    && EntryUpTo(adjusted, conditions, k, HypertensiveCrisis)
    && EntryUpTo(adjusted, conditions, k, HypotensiveShock)
    && EntryUpTo(adjusted, conditions, k, RespiratoryDistress)
    && EntryUpTo(adjusted, conditions, k, Hypoxemia)
    && EntryUpTo(adjusted, conditions, k, FeverSpike)
    && EntryUpTo(adjusted, conditions, k, Hypothermia)
    && EntryUpTo(adjusted, conditions, k, Hyperglycemia)
    && EntryUpTo(adjusted, conditions, k, Hypoglycemia)
    && EntryUpTo(adjusted, conditions, k, Tachycardia)
    && EntryUpTo(adjusted, conditions, k, Bradycardia)
  }

  /** The heart-disease block: arrhythmia times 3, tachycardia and bradycardia times 2. */
  method HeartDiseaseBlock(table: map<AnomalyType, real>, conditions: seq<string>) returns (adjusted: map<AnomalyType, real>)
    requires ScaledUpTo(table, conditions, 0)
    ensures adjusted.Keys == table.Keys && ScaledUpTo(adjusted, conditions, 1)
  {
    adjusted := table;
    if "heart_disease" in conditions {
      adjusted := adjusted[CardiacArrhythmia := adjusted[CardiacArrhythmia] * 3.0];
      adjusted := adjusted[Tachycardia := adjusted[Tachycardia] * 2.0];
      adjusted := adjusted[Bradycardia := adjusted[Bradycardia] * 2.0];
    }
  }

  /** The hypertension block: hypertensive crisis times 4. */
  method HypertensionBlock(table: map<AnomalyType, real>, conditions: seq<string>) returns (adjusted: map<AnomalyType, real>)
    requires ScaledUpTo(table, conditions, 1)
    ensures adjusted.Keys == table.Keys && ScaledUpTo(adjusted, conditions, 2)
  {
    adjusted := table;
    if "hypertension" in conditions {
      adjusted := adjusted[HypertensiveCrisis := adjusted[HypertensiveCrisis] * 4.0];
    }
  }

  /** The diabetes block: hyperglycemia times 5, hypoglycemia times 3. */
  method DiabetesBlock(table: map<AnomalyType, real>, conditions: seq<string>) returns (adjusted: map<AnomalyType, real>)
    requires ScaledUpTo(table, conditions, 2)
    ensures adjusted.Keys == table.Keys && ScaledUpTo(adjusted, conditions, 3)
  {
    adjusted := table;
    if "diabetes" in conditions {
      adjusted := adjusted[Hyperglycemia := adjusted[Hyperglycemia] * 5.0];
      adjusted := adjusted[Hypoglycemia := adjusted[Hypoglycemia] * 3.0];
    }
  }

  /** The COPD-or-asthma block: respiratory distress times 4, hypoxemia times 3. */
  method RespiratoryBlock(table: map<AnomalyType, real>, conditions: seq<string>) returns (adjusted: map<AnomalyType, real>)
    requires ScaledUpTo(table, conditions, 3)
    ensures adjusted.Keys == table.Keys && ScaledUpTo(adjusted, conditions, 4)
  {
    adjusted := table;
    if "copd" in conditions || "asthma" in conditions {
      adjusted := adjusted[RespiratoryDistress := adjusted[RespiratoryDistress] * 4.0];
      adjusted := adjusted[Hypoxemia := adjusted[Hypoxemia] * 3.0];
    }
  }

  /** The first step of `should_trigger_anomaly`: a copy of the probability table with
      each entry multiplied by the factors of the patient's conditions, block by block. */
  method ConditionAdjusted(conditions: seq<string>) returns (adjusted: map<AnomalyType, real>)
    ensures forall a :: a in adjusted <==> a in ScenarioOrder
    ensures forall a :: a in adjusted ==> adjusted[a] == ConditionScaled(conditions, a)
  {
    adjusted := map a | a in ScenarioOrder :: BaseProbability(a);
    adjusted := HeartDiseaseBlock(adjusted, conditions);
    adjusted := HypertensionBlock(adjusted, conditions);
    adjusted := DiabetesBlock(adjusted, conditions);
    adjusted := RespiratoryBlock(adjusted, conditions);
    forall a | a in adjusted ensures adjusted[a] == ConditionScaled(conditions, a) {
      match a {
        case CardiacArrhythmia =>
        case HypertensiveCrisis =>
        case HypotensiveShock =>
        case RespiratoryDistress =>
        case Hypoxemia =>
        case FeverSpike =>
        case Hypothermia =>
        case Hyperglycemia =>
        case Hypoglycemia =>
        case Tachycardia =>
        case Bradycardia =>
      }
    }
  }

  /** The adjusted table: condition factors, then every entry times 1.5 past 70, then
      every entry doubled in the critical state. */
  method AdjustedProbabilities(profile: PatientProfile) returns (adjusted: map<AnomalyType, real>)
    ensures forall a :: a in adjusted <==> a in ScenarioOrder
    ensures forall a :: a in adjusted ==> adjusted[a] == AdjustedProbability(profile, a)
  {
    adjusted := ConditionAdjusted(profile.conditions);
    ScenarioOrderDistinct();
    if profile.age > 70 {
      adjusted := ScaleAll(adjusted, ScenarioOrder, 1.5);
    }
    if profile.currentState == "critical" {
      adjusted := ScaleAll(adjusted, ScenarioOrder, 2.0);
    }
  }

  /** Scales a copy of the probability table by the patient's conditions, age and state,
      then tries one draw per type in declaration order. `draws[i]` is the
      `random.random()` drawn for `ScenarioOrder[i]`; draws after the first success are
      never used. */
  method ShouldTriggerAnomaly(profile: PatientProfile, draws: seq<real>) returns (r: Option<AnomalyType>)
    requires |draws| == |ScenarioOrder|
    requires forall i :: 0 <= i < |draws| ==> 0.0 <= draws[i] < 1.0
    ensures r == AnomalyTriggered(profile, draws)
  {
    var adjusted := AdjustedProbabilities(profile);
    r := FirstTriggered(ScenarioOrder, adjusted, draws);
    assert InOrder(adjusted, ScenarioOrder) == AnomalyProbabilities(profile);
  }

  /** No adjusted probability falls below its base, so whenever a patient without risk
      factors would see an anomaly on some draws, any patient sees one on the same draws,
      of a type no later in declaration order. */
  lemma RiskOnlyRaisesChances(profile: PatientProfile, draws: seq<real>)
    requires |draws| == |ScenarioOrder|
    ensures var plain := PatientProfile(profile.patientId, 0, [], [], [], profile.baselineVitals, "stable");
      AnomalyTriggered(plain, draws).Some? ==> AnomalyTriggered(profile, draws).Some?
  {
    var plain := PatientProfile(profile.patientId, 0, [], [], [], profile.baselineVitals, "stable");
    var low, high := AnomalyProbabilities(plain), AnomalyProbabilities(profile);
    forall i | 0 <= i < |low| ensures low[i] <= high[i] {
      assert low[i] == BaseProbability(ScenarioOrder[i]);
    }
    FirstBelowMonotone(draws, low, high);
  }

  // ---------------------------------------------------------------------------
  // Hazard probabilities (should_trigger_environmental_hazard)
  // ---------------------------------------------------------------------------

  datatype HazardType =
    | TemperatureExtreme | HumidityExtreme | AirQualityPoor | NoiseExcessive
    | LightingFailure | ContaminationRisk

  /** The keys of `hazard_probabilities`, in the order the dictionary holds them. */
  const HazardOrder: seq<HazardType> := [
    TemperatureExtreme, HumidityExtreme, AirQualityPoor, NoiseExcessive,
    LightingFailure, ContaminationRisk]

  function HazardIndex(h: HazardType): (i: nat)
    ensures i < |HazardOrder| && HazardOrder[i] == h
  {
    match h
    case TemperatureExtreme => 0
    case HumidityExtreme => 1
    case AirQualityPoor => 2
    case NoiseExcessive => 3
    case LightingFailure => 4
    case ContaminationRisk => 5
  }

  /** Every hazard is listed, exactly once. */
  lemma HazardOrderComplete()
    ensures forall h :: h in HazardOrder
    ensures forall i, j :: 0 <= i < j < |HazardOrder| ==> HazardOrder[i] != HazardOrder[j]
  {
    forall h ensures h in HazardOrder {
      assert HazardOrder[HazardIndex(h)] == h;
    }
    forall i, j | 0 <= i < j < |HazardOrder| ensures HazardOrder[i] != HazardOrder[j] {
      assert HazardIndex(HazardOrder[i]) == i && HazardIndex(HazardOrder[j]) == j;
    }
  }

  /** The hazard's key in the probability table and in alert messages. */
  function HazardName(h: HazardType): string {
    match h
    case TemperatureExtreme => "temperature_extreme"
    case HumidityExtreme => "humidity_extreme"
    case AirQualityPoor => "air_quality_poor"
    case NoiseExcessive => "noise_excessive"
    case LightingFailure => "lighting_failure"
    case ContaminationRisk => "contamination_risk"
  }

  function BaseHazardProbability(h: HazardType): (p: real)
    ensures 0.0 < p < 1.0
  {
    match h
    case TemperatureExtreme => 0.01
    case HumidityExtreme => 0.015
    case AirQualityPoor => 0.02
    case NoiseExcessive => 0.008
    case LightingFailure => 0.005
    case ContaminationRisk => 0.003
  }

  /** A hazard's probability in a room of the given type: halved in the ICU and the
      emergency room, raised by a fifth in a general ward, unchanged elsewhere. */
  function HazardProbability(roomType: string, h: HazardType): (p: real)
    ensures roomType in ["icu", "emergency"] ==> p == BaseHazardProbability(h) / 2.0
    ensures roomType == "general_ward" ==> p == BaseHazardProbability(h) * 1.2
    ensures roomType !in ["icu", "emergency", "general_ward"] ==> p == BaseHazardProbability(h)
  {
    if roomType in ["icu", "emergency"] then BaseHazardProbability(h) * 0.5
    else if roomType in ["general_ward"] then BaseHazardProbability(h) * 1.2
    else BaseHazardProbability(h)
  }

  function HazardProbabilities(roomType: string): (probs: seq<real>)
    ensures |probs| == |HazardOrder|
    ensures forall i :: 0 <= i < |HazardOrder| ==> probs[i] == HazardProbability(roomType, HazardOrder[i])
  {
    seq(|HazardOrder|, i requires 0 <= i < |HazardOrder| => HazardProbability(roomType, HazardOrder[i]))
  }

  /** The hazard a room sees on the given draws: the first in declaration order whose
      draw is below its probability, else none. */
  function HazardTriggered(roomType: string, draws: seq<real>): (r: Option<HazardType>)
    requires |draws| == |HazardOrder|
    ensures r.None? <==> forall i :: 0 <= i < |HazardOrder| ==> draws[i] >= HazardProbability(roomType, HazardOrder[i])
    ensures r.Some? ==> draws[HazardIndex(r.value)] < HazardProbability(roomType, r.value)
    ensures r.Some? ==> forall j :: 0 <= j < HazardIndex(r.value) ==> draws[j] >= HazardProbability(roomType, HazardOrder[j])
  {
    PickAt(HazardOrder, FirstBelow(draws, HazardProbabilities(roomType), 0))
  }

  /** Copies the hazard table, scales every entry by the room type's factor, then tries
      one draw per hazard in declaration order. */
  method ShouldTriggerEnvironmentalHazard(roomType: string, draws: seq<real>) returns (r: Option<HazardType>)
    requires |draws| == |HazardOrder|
    requires forall i :: 0 <= i < |draws| ==> 0.0 <= draws[i] < 1.0
    ensures r == HazardTriggered(roomType, draws)
  {
    var adjusted := map h | h in HazardOrder :: BaseHazardProbability(h);
    HazardOrderComplete();
    assert forall h :: h in adjusted <==> h in HazardOrder;
    if roomType in ["icu", "emergency"] {
      adjusted := ScaleAll(adjusted, HazardOrder, 0.5);
    } else if roomType in ["general_ward"] {
      adjusted := ScaleAll(adjusted, HazardOrder, 1.2);
    }
    assert forall h :: h in adjusted && adjusted[h] == HazardProbability(roomType, h);
    r := FirstTriggered(HazardOrder, adjusted, draws);
    HazardTableInOrder(adjusted, roomType);
  }

  /** A table holding every hazard's room-type probability lists them as `HazardProbabilities`. */
  lemma HazardTableInOrder(adjusted: map<HazardType, real>, roomType: string)
    requires forall h :: h in adjusted && adjusted[h] == HazardProbability(roomType, h)
    ensures InOrder(adjusted, HazardOrder) == HazardProbabilities(roomType)
  {
    var listed, probs := InOrder(adjusted, HazardOrder), HazardProbabilities(roomType);
    forall i | 0 <= i < |HazardOrder| ensures listed[i] == probs[i] {
    }
  }

  /** On the same draws an ICU room sees a hazard only when a general ward would, and the
      ward's hazard comes no later in declaration order. */
  lemma IcuHazardImpliesWardHazard(draws: seq<real>)
    requires |draws| == |HazardOrder|
    ensures HazardTriggered("icu", draws).Some? ==> HazardTriggered("general_ward", draws).Some?
    ensures HazardTriggered("icu", draws).Some? ==>
      HazardIndex(HazardTriggered("general_ward", draws).value) <= HazardIndex(HazardTriggered("icu", draws).value)
  {
    var low, high := HazardProbabilities("icu"), HazardProbabilities("general_ward");
    forall i | 0 <= i < |low| ensures low[i] <= high[i] {
      assert "icu" in ["icu", "emergency"];
    }
    FirstBelowMonotone(draws, low, high);
  }

  // ---------------------------------------------------------------------------
  // Anomaly vitals (generate_anomaly_vitals)
  // ---------------------------------------------------------------------------

  /** The draws one anomaly branch takes, in the order it takes them: up to three
      `randint`s and one `uniform`. */
  datatype AnomalyDraws = AnomalyDraws(n1: int, n2: int, n3: int, u: real)

  predicate AnomalyDrawsValid(a: AnomalyType, d: AnomalyDraws) {
    match a
    case CardiacArrhythmia => -30 <= d.n1 <= 50
    case HypertensiveCrisis => 40 <= d.n1 <= 80 && 20 <= d.n2 <= 40 && 10 <= d.n3 <= 30
    case HypotensiveShock => 30 <= d.n1 <= 60 && 15 <= d.n2 <= 30 && 20 <= d.n3 <= 40 && 0.5 <= d.u <= 1.5
    case RespiratoryDistress => 8 <= d.n1 <= 20 && 5 <= d.n2 <= 15 && 10 <= d.n3 <= 25
    case Hypoxemia => 8 <= d.n1 <= 20 && 5 <= d.n2 <= 15 && 10 <= d.n3 <= 20
    case FeverSpike => 1.0 <= d.u <= 3.5 && 15 <= d.n1 <= 30 && 3 <= d.n2 <= 8
    case Hypothermia => 2.0 <= d.u <= 5.0 && 10 <= d.n1 <= 30 && 2 <= d.n2 <= 6
    case Hyperglycemia => 100 <= d.n1 <= 300 && 5 <= d.n2 <= 15 && 2 <= d.n3 <= 6
    case Hypoglycemia => 40 <= d.n1 <= 70 && 10 <= d.n2 <= 25 && 0.2 <= d.u <= 0.8
    case Tachycardia => 30 <= d.n1 <= 70
    case Bradycardia => 20 <= d.n1 <= 40
    case EnvironmentalHazard | PatientFallRisk | MedicationInteraction => true
  }

  /** The fields an anomaly branch writes. */
  function Touched(a: AnomalyType): set<VitalField> {
    match a
    case CardiacArrhythmia => {HeartRate}
    case HypertensiveCrisis => {SystolicBP, DiastolicBP, HeartRate}
    case HypotensiveShock => {SystolicBP, DiastolicBP, HeartRate, Temperature}
    case RespiratoryDistress => {RespiratoryRate, OxygenLevel, HeartRate}
    case Hypoxemia => {OxygenLevel, RespiratoryRate, HeartRate}
    case FeverSpike => {Temperature, HeartRate, RespiratoryRate}
    case Hypothermia => {Temperature, HeartRate, RespiratoryRate}
    case Hyperglycemia => {Glucose, HeartRate, RespiratoryRate}
    case Hypoglycemia => {Glucose, HeartRate, Temperature}
    case Tachycardia => {HeartRate}
    case Bradycardia => {HeartRate}
    case EnvironmentalHazard | PatientFallRisk | MedicationInteraction => {}
  }

  function AtLeast(lo: real, x: real): (r: real)
    ensures r >= lo && r >= x && (r == lo || r == x)
  {
    if x < lo then lo else x
  }

  function AtMost(hi: real, x: real): (r: real)
    ensures r <= hi && r <= x && (r == hi || r == x)
  {
    if x > hi then hi else x
  }

  /** Overwrites the fields of a copy of the baseline that the anomaly names, and grades
      the alert by the value reached. */
  method GenerateAnomalyVitals(a: AnomalyType, baseline: Vitals, severity: real, d: AnomalyDraws)
    returns (vitals: Vitals, level: AlertLevel)
    requires AnomalyDrawsValid(a, d)
    ensures forall f :: f !in Touched(a) ==> vitals.Get(f) == baseline.Get(f)
    ensures a == CardiacArrhythmia ==> 40.0 <= vitals.heartRate <= 200.0 && level == (if severity > 0.7 then High else Medium)
    ensures a == HypertensiveCrisis ==> (level == Critical <==> vitals.systolicBP > 180.0) && level in {High, Critical}
    ensures a == HypotensiveShock ==> level == Critical && vitals.systolicBP >= 60.0 && vitals.diastolicBP >= 40.0
    ensures a == HypotensiveShock ==> vitals.heartRate > baseline.heartRate && vitals.temperature < baseline.temperature
    ensures a == RespiratoryDistress ==> vitals.oxygenLevel >= 75.0 && level == (if vitals.oxygenLevel < 88.0 then High else Medium)
    ensures a == Hypoxemia ==> vitals.oxygenLevel >= 70.0 && level == (if vitals.oxygenLevel < 80.0 then Critical else High)
    ensures a == FeverSpike ==> level == (if vitals.temperature > 39.5 then High else Medium)
    ensures a == Hypothermia ==> vitals.temperature >= 32.0 && vitals.heartRate >= 40.0 && vitals.respiratoryRate >= 8.0
    ensures a == Hypothermia ==> level == (if vitals.temperature < 35.0 then Critical else High)
    ensures a == Hyperglycemia ==> level == (if vitals.glucose > 400.0 then Critical else High)
    ensures a == Hypoglycemia ==> vitals.glucose >= 30.0 && level == (if vitals.glucose < 50.0 then Critical else High)
    ensures a == Tachycardia ==> vitals.heartRate <= 220.0 && level == (if vitals.heartRate > 150.0 then High else Medium)
    ensures a == Bradycardia ==> vitals.heartRate >= 30.0 && level == (if vitals.heartRate < 50.0 then High else Medium)
    ensures a !in ScenarioOrder ==> vitals == baseline && level == Low
  {
    vitals := baseline;
    level := Low;
    var b := baseline;
    match a {
      case CardiacArrhythmia =>
        vitals := vitals.(heartRate := b.heartRate + d.n1 as real * severity);
        vitals := vitals.(heartRate := AtLeast(40.0, AtMost(200.0, vitals.heartRate)));
        level := if severity > 0.7 then High else Medium;
      case HypertensiveCrisis =>
        vitals := vitals.(systolicBP := b.systolicBP + d.n1 as real * severity);
        vitals := vitals.(diastolicBP := b.diastolicBP + d.n2 as real * severity);
        vitals := vitals.(heartRate := b.heartRate + d.n3 as real);
        level := if vitals.systolicBP > 180.0 then Critical else High;
      case HypotensiveShock =>
        vitals := vitals.(systolicBP := AtLeast(60.0, b.systolicBP - d.n1 as real * severity));
        vitals := vitals.(diastolicBP := AtLeast(40.0, b.diastolicBP - d.n2 as real * severity));
        vitals := vitals.(heartRate := b.heartRate + d.n3 as real);
        vitals := vitals.(temperature := b.temperature - d.u);
        level := Critical;
      case RespiratoryDistress =>
        vitals := vitals.(respiratoryRate := b.respiratoryRate + d.n1 as real * severity);
        vitals := vitals.(oxygenLevel := AtLeast(75.0, b.oxygenLevel - d.n2 as real * severity));
        vitals := vitals.(heartRate := b.heartRate + d.n3 as real);
        level := if vitals.oxygenLevel < 88.0 then High else Medium;
      case Hypoxemia =>
        vitals := vitals.(oxygenLevel := AtLeast(70.0, b.oxygenLevel - d.n1 as real * severity));
        vitals := vitals.(respiratoryRate := b.respiratoryRate + d.n2 as real);
        vitals := vitals.(heartRate := b.heartRate + d.n3 as real);
        level := if vitals.oxygenLevel < 80.0 then Critical else High;
      case FeverSpike =>
        vitals := vitals.(temperature := b.temperature + d.u * severity);
        vitals := vitals.(heartRate := b.heartRate + d.n1 as real);
        vitals := vitals.(respiratoryRate := b.respiratoryRate + d.n2 as real);
        level := if vitals.temperature > 39.5 then High else Medium;
      case Hypothermia =>
        vitals := vitals.(temperature := AtLeast(32.0, b.temperature - d.u * severity));
        vitals := vitals.(heartRate := AtLeast(40.0, b.heartRate - d.n1 as real));
        vitals := vitals.(respiratoryRate := AtLeast(8.0, b.respiratoryRate - d.n2 as real));
        level := if vitals.temperature < 35.0 then Critical else High;
      case Hyperglycemia =>
        vitals := vitals.(glucose := b.glucose + d.n1 as real * severity);
        vitals := vitals.(heartRate := b.heartRate + d.n2 as real);
        vitals := vitals.(respiratoryRate := b.respiratoryRate + d.n3 as real);
        level := if vitals.glucose > 400.0 then Critical else High;
      case Hypoglycemia =>
        vitals := vitals.(glucose := AtLeast(30.0, b.glucose - d.n1 as real * severity));
        vitals := vitals.(heartRate := b.heartRate + d.n2 as real);
        vitals := vitals.(temperature := b.temperature - d.u);
        level := if vitals.glucose < 50.0 then Critical else High;
      case Tachycardia =>
        vitals := vitals.(heartRate := b.heartRate + d.n1 as real * severity);
        vitals := vitals.(heartRate := AtMost(220.0, vitals.heartRate));
        level := if vitals.heartRate > 150.0 then High else Medium;
      case Bradycardia =>
        vitals := vitals.(heartRate := AtLeast(30.0, b.heartRate - d.n1 as real * severity));
        level := if vitals.heartRate < 50.0 then High else Medium;
      case EnvironmentalHazard =>
      case PatientFallRisk =>
      case MedicationInteraction =>
    }
  }

  // ---------------------------------------------------------------------------
  // Room environment (generate_environmental_data, generate_hazard_environmental_data)
  // ---------------------------------------------------------------------------

  /** An environmental reading of this simulator. `particleCount` is only present once a
      contamination hazard has set it. */
  datatype Environment = Environment(
    temperature: real,
    humidity: real,
    airQuality: real,
    noiseLevel: real,
    co2Level: real,
    lightLevel: real,
    particleCount: Option<real>)

  /** The baseline used when the caller gives none. */
  const DefaultEnvironment := Environment(22.0, 45.0, 85.0, 35.0, 400.0, 300.0, None)

  /** The six `uniform` draws of one reading. */
  datatype EnvironmentDraws = EnvironmentDraws(
    temperature: real, humidity: real, airQuality: real, noiseLevel: real, co2Level: real, lightLevel: real)

  predicate EnvironmentDrawsValid(d: EnvironmentDraws) {
    -1.0 <= d.temperature <= 1.0 && -5.0 <= d.humidity <= 5.0 && -5.0 <= d.airQuality <= 5.0
    && -5.0 <= d.noiseLevel <= 10.0 && -50.0 <= d.co2Level <= 100.0 && -50.0 <= d.lightLevel <= 50.0
  }

  /** A routine reading: the baseline (or the default one) plus natural variation, with
      humidity and air quality held in their bands and noise, CO2 and light held above
      their floors; the temperature is not clamped. */
  function GenerateEnvironmentalData(baseline: Option<Environment>, d: EnvironmentDraws): (env: Environment)
    requires EnvironmentDrawsValid(d)
    ensures 30.0 <= env.humidity <= 70.0 && 50.0 <= env.airQuality <= 100.0
    ensures env.noiseLevel >= 25.0 && env.co2Level >= 350.0 && env.lightLevel >= 200.0
    ensures var b := if baseline.Some? then baseline.value else DefaultEnvironment;
      b.temperature - 1.0 <= env.temperature <= b.temperature + 1.0
    ensures env.particleCount.None?
  {
    var b := if baseline.Some? then baseline.value else DefaultEnvironment;
    Environment(
      temperature := b.temperature + d.temperature,
      humidity := Clamp(30.0, 70.0, b.humidity + d.humidity),
      airQuality := Clamp(50.0, 100.0, b.airQuality + d.airQuality),
      noiseLevel := AtLeast(25.0, b.noiseLevel + d.noiseLevel),
      co2Level := AtLeast(350.0, b.co2Level + d.co2Level),
      lightLevel := AtLeast(200.0, b.lightLevel + d.lightLevel),
      particleCount := None)
  }

  /** The draws of one hazard branch: the hot-or-cold / high-or-low coin and up to two
      `uniform`s. */
  predicate HazardDrawsValid(h: HazardType, up: bool, u1: real, u2: real) {
    match h
    case TemperatureExtreme => if up then 5.0 <= u1 <= 12.0 else 3.0 <= u1 <= 8.0
    case HumidityExtreme => if up then 15.0 <= u1 <= 30.0 else 10.0 <= u1 <= 25.0
    case AirQualityPoor => 20.0 <= u1 <= 40.0 && 200.0 <= u2 <= 800.0
    case NoiseExcessive => 15.0 <= u1 <= 35.0
    case LightingFailure => true
    case ContaminationRisk => 30.0 <= u1 <= 50.0 && 500.0 <= u2 <= 2000.0
  }

  /** Overwrites the fields of a copy of the reading that the hazard affects and grades
      the alert. A lighting failure changes nothing and stays at LOW. */
  method GenerateHazardEnvironmentalData(h: HazardType, env: Environment, up: bool, u1: real, u2: real)
    returns (r: Environment, level: AlertLevel)
    requires HazardDrawsValid(h, up, u1, u2)
    ensures h == TemperatureExtreme ==> r == env.(temperature := r.temperature)
    ensures h == TemperatureExtreme && up ==> r.temperature > env.temperature && level == (if r.temperature > 28.0 then High else Medium)
    ensures h == TemperatureExtreme && !up ==> r.temperature < env.temperature && level == (if r.temperature < 18.0 then High else Medium)
    ensures h == HumidityExtreme ==> r == env.(humidity := r.humidity)
    ensures h == HumidityExtreme && up ==> r.humidity <= 95.0 && level == (if r.humidity > 70.0 then Medium else Low)
    ensures h == HumidityExtreme && !up ==> r.humidity >= 10.0 && level == (if r.humidity < 30.0 then Medium else Low)
    ensures h == AirQualityPoor ==> r == env.(airQuality := r.airQuality, co2Level := r.co2Level)
    ensures h == AirQualityPoor ==> r.airQuality >= 0.0 && r.co2Level > env.co2Level && level == (if r.airQuality < 30.0 then High else Medium)
    ensures h == NoiseExcessive ==> r == env.(noiseLevel := r.noiseLevel) && r.noiseLevel > env.noiseLevel
    ensures h == NoiseExcessive ==> level == (if r.noiseLevel > 70.0 then Medium else Low)
    ensures h == LightingFailure ==> r == env && level == Low
    ensures h == ContaminationRisk ==> r == env.(airQuality := r.airQuality, particleCount := r.particleCount)
    ensures h == ContaminationRisk ==> r.airQuality >= 10.0 && level == High
    ensures h == ContaminationRisk ==>
      (r.particleCount.Some? && r.particleCount.value >= (if env.particleCount.Some? then env.particleCount.value else 100.0) + 500.0)
  {
    r := env;
    level := Low;
    match h {
      case TemperatureExtreme =>
        if up {
          r := r.(temperature := env.temperature + u1);
          level := if r.temperature > 28.0 then High else Medium;
        } else {
          r := r.(temperature := env.temperature - u1);
          level := if r.temperature < 18.0 then High else Medium;
        }
      case HumidityExtreme =>
        if up {
          r := r.(humidity := AtMost(95.0, env.humidity + u1));
          level := if r.humidity > 70.0 then Medium else Low;
        } else {
          r := r.(humidity := AtLeast(10.0, env.humidity - u1));
          level := if r.humidity < 30.0 then Medium else Low;
        }
      case AirQualityPoor =>
        r := r.(airQuality := AtLeast(0.0, env.airQuality - u1));
        r := r.(co2Level := env.co2Level + u2);
        level := if r.airQuality < 30.0 then High else Medium;
      case NoiseExcessive =>
        r := r.(noiseLevel := env.noiseLevel + u1);
        level := if r.noiseLevel > 70.0 then Medium else Low;
      case LightingFailure =>
      case ContaminationRisk =>
        r := r.(airQuality := AtLeast(10.0, env.airQuality - u1));
        var particles := if env.particleCount.Some? then env.particleCount.value else 100.0;
        r := r.(particleCount := Some(particles + u2));
        level := High;
    }
  }

  // ---------------------------------------------------------------------------
  // Patient profile derivation (calculate_baseline_vitals, determine_risk_factors)
  // ---------------------------------------------------------------------------

  /** `personal_info.get('age', default)` */
  function AgeOr(age: Option<int>, default: int): int {
    if age.Some? then age.value else default
  }

  /** Every condition lower-cased, as the profile loader stores them. */
  function LowerAll(names: seq<string>): (r: seq<string>)
    ensures |r| == |names| && forall i :: 0 <= i < |names| ==> r[i] == Lower(names[i])
  {
    seq(|names|, i requires 0 <= i < |names| => Lower(names[i]))
  }

  /** The baseline of a profile: the simulator's age bands for heart rate and blood
      pressure, a banded respiratory rate (20 / 16 / 18), and one adjustment per
      lower-cased condition. A missing age counts as 50. */
  function ProfileBaseline(age: Option<int>, conditions: seq<string>): Vitals {
    var a := AgeOr(age, 50);
    var lowered := LowerAll(conditions);
    var band := VitalsSimulator.AgeBand(a);
    var rr := if a < 18 then 20.0 else if a < 65 then 16.0 else 18.0;
    Vitals(
      heartRate := band.0,
      oxygenLevel := 98.0 - VitalsSimulator.Shift(lowered, "copd", 6.0) - VitalsSimulator.Shift(lowered, "asthma", 2.0),
      temperature := 37.0,
      systolicBP := band.1 + VitalsSimulator.Shift(lowered, "hypertension", 15.0),
      diastolicBP := band.2 + VitalsSimulator.Shift(lowered, "hypertension", 10.0),
      respiratoryRate := rr + VitalsSimulator.Shift(lowered, "copd", 6.0) + VitalsSimulator.Shift(lowered, "asthma", 2.0),
      glucose := 100.0 + VitalsSimulator.Shift(lowered, "diabetes", 30.0))
  }

  /** Builds the baseline as the source does: the age band, the common values, then one
      `+=` / `-=` per lower-cased condition. */
  method CalculateBaselineVitals(age: Option<int>, conditions: seq<string>) returns (baseline: Vitals)
    ensures baseline == ProfileBaseline(age, conditions)
  {
    var a := if age.Some? then age.value else 50;
    var lowered := LowerAll(conditions);
    if a < 18 {
      baseline := Vitals(90.0, 0.0, 0.0, 105.0, 65.0, 20.0, 0.0);
    } else if a < 65 {
      baseline := Vitals(70.0, 0.0, 0.0, 120.0, 80.0, 16.0, 0.0);
    } else {
      baseline := Vitals(75.0, 0.0, 0.0, 130.0, 85.0, 18.0, 0.0);
    }
    baseline := baseline.(oxygenLevel := 98.0, temperature := 37.0, glucose := 100.0);
    if "hypertension" in lowered {
      baseline := baseline.(systolicBP := baseline.systolicBP + 15.0);
      baseline := baseline.(diastolicBP := baseline.diastolicBP + 10.0);
    }
    if "diabetes" in lowered {
      baseline := baseline.(glucose := baseline.glucose + 30.0);
    }
    if "copd" in lowered {
      baseline := baseline.(oxygenLevel := baseline.oxygenLevel - 6.0);
      baseline := baseline.(respiratoryRate := baseline.respiratoryRate + 6.0);
    }
    if "asthma" in lowered {
      baseline := baseline.(oxygenLevel := baseline.oxygenLevel - 2.0);
      baseline := baseline.(respiratoryRate := baseline.respiratoryRate + 2.0);
    }
  }

  /** The profile baseline agrees with the per-tick simulator's baseline on the
      lower-cased conditions in every field but the respiratory rate, which is banded
      by age (20 / 16 / 18 instead of 16), and the heart rate, which the simulator alone
      raises for cardiac arrhythmia. */
  lemma ProfileBaselineMatchesSimulator(age: int, conditions: seq<string>, f: VitalField)
    ensures f !in {HeartRate, RespiratoryRate} ==>
      ProfileBaseline(Some(age), conditions).Get(f) == VitalsSimulator.Baseline(age, LowerAll(conditions)).Get(f)
    ensures ProfileBaseline(Some(age), conditions).respiratoryRate
      == VitalsSimulator.Baseline(age, LowerAll(conditions)).respiratoryRate + (if age < 18 then 4.0 else if age < 65 then 0.0 else 2.0)
    ensures ProfileBaseline(Some(age), conditions).heartRate
      == VitalsSimulator.Baseline(age, LowerAll(conditions)).heartRate - VitalsSimulator.Shift(LowerAll(conditions), "cardiac_arrhythmia", 15.0)
  {
  }

  /** The letter case of the recorded conditions does not matter. */
  lemma {:induction false} ProfileBaselineIgnoresCase(age: Option<int>, conditions: seq<string>)
    ensures ProfileBaseline(age, conditions) == ProfileBaseline(age, LowerAll(conditions))
  {
    var once, twice := LowerAll(conditions), LowerAll(LowerAll(conditions));
    forall i | 0 <= i < |once| ensures twice[i] == once[i] {
      LowerIdempotent(conditions[i]);
    }
    assert twice == once;
  }

  /** The risk tags a profile can carry. */
  datatype RiskFactor =
    | Elderly | Pediatric | CardiacRisk | DiabeticRisk | RespiratoryRisk | RenalRisk
    | BleedingRisk | HypoglycemiaRisk

  /** The tag as stored. */
  function RiskTag(r: RiskFactor): string {
    match r
    case Elderly => "elderly"
    case Pediatric => "pediatric"
    case CardiacRisk => "cardiac_risk"
    case DiabeticRisk => "diabetic_risk"
    case RespiratoryRisk => "respiratory_risk"
    case RenalRisk => "renal_risk"
    case BleedingRisk => "bleeding_risk"
    case HypoglycemiaRisk => "hypoglycemia_risk"
  }

  /** Some listed condition, lower-cased, is one of `names`. */
  predicate AnyCondition(conditions: seq<string>, names: seq<string>) {
    exists c :: c in names && c in LowerAll(conditions)
  }

  /** A medication's name lower-cased; a record without a name counts as "". */
  function MedicationName(name: Option<string>): string {
    Lower(if name.Some? then name.value else "")
  }

  /** Some medication's lower-cased name contains `sub`. */
  predicate AnyMedicationContains(medications: seq<Option<string>>, sub: string) {
    exists i :: 0 <= i < |medications| && Contains(MedicationName(medications[i]), sub)
  }

  /** When each rule of `determine_risk_factors` fires. A missing age counts as 0. */
  predicate Fires(r: RiskFactor, age: Option<int>, conditions: seq<string>, medications: seq<Option<string>>) {
    match r
    case Elderly => AgeOr(age, 0) > 65
    case Pediatric => AgeOr(age, 0) < 18
    case CardiacRisk => AnyCondition(conditions, ["heart_disease", "cardiac", "hypertension"])
    case DiabeticRisk => AnyCondition(conditions, ["diabetes", "diabetic"])
    case RespiratoryRisk => AnyCondition(conditions, ["copd", "asthma", "respiratory"])
    case RenalRisk => AnyCondition(conditions, ["kidney", "renal"])
    case BleedingRisk =>
      AnyMedicationContains(medications, "warfarin") || AnyMedicationContains(medications, "heparin")
    case HypoglycemiaRisk => AnyMedicationContains(medications, "insulin")
  }

  /** The rules in the order they are tried. */
  const RuleOrder: seq<RiskFactor> :=
    [Elderly, Pediatric, CardiacRisk, DiabeticRisk, RespiratoryRisk, RenalRisk, BleedingRisk, HypoglycemiaRisk]

  /** The rules that fire for a profile. */
  function FiredRules(age: Option<int>, conditions: seq<string>, medications: seq<Option<string>>): set<RiskFactor> {
    set r | r in RuleOrder && Fires(r, age, conditions, medications)
  }

  /** The tags after the first `k` rules have been tried, given the rules that fire. */
  function RiskFactorsAfter(k: nat, fired: set<RiskFactor>): seq<RiskFactor>
    requires k <= |RuleOrder|
  {
    if k == 0 then []
    else
      var before := RiskFactorsAfter(k - 1, fired);
      if RuleOrder[k - 1] in fired then before + [RuleOrder[k - 1]] else before
  }

  /** The tags once every rule has been tried. */
  function RiskFactorsOf(age: Option<int>, conditions: seq<string>, medications: seq<Option<string>>): seq<RiskFactor> {
    RiskFactorsAfter(|RuleOrder|, FiredRules(age, conditions, medications))
  }

  /** No rule comes twice. */
  lemma RuleOrderDistinct(k: nat)
    requires k < |RuleOrder|
    ensures RuleOrder[k] !in RuleOrder[..k]
  {
  }

  /** After `k` rules, a tag is present exactly when its rule is among them and fired. */
  lemma {:induction false} RiskFactorsAfterMembers(k: nat, fired: set<RiskFactor>, r: RiskFactor)
    requires k <= |RuleOrder|
    ensures r in RiskFactorsAfter(k, fired) <==> r in RuleOrder[..k] && r in fired
  {
    if k > 0 {
      RiskFactorsAfterMembers(k - 1, fired, r);
      assert RuleOrder[..k] == RuleOrder[..k - 1] + [RuleOrder[k - 1]];
    }
  }

  /** After `k` rules, no tag is present twice. */
  lemma {:induction false} RiskFactorsAfterOnce(k: nat, fired: set<RiskFactor>, r: RiskFactor)
    requires k <= |RuleOrder|
    ensures multiset(RiskFactorsAfter(k, fired))[r] <= 1
  {
    if k > 0 {
      var before, t := RiskFactorsAfter(k - 1, fired), RuleOrder[k - 1];
      RiskFactorsAfterOnce(k - 1, fired, r);
      if t in fired {
        assert RiskFactorsAfter(k, fired) == before + [t];
        assert multiset(before + [t]) == multiset(before) + multiset{t};
        if t == r {
          RuleOrderDistinct(k - 1);
          RiskFactorsAfterMembers(k - 1, fired, r);
          assert multiset(before)[r] == 0;
        }
      } else {
        assert RiskFactorsAfter(k, fired) == before;
      }
    }
  }

  /** A profile carries exactly the tags whose rules fire, each at most once, and never
      both age tags. */
  lemma RiskFactorsAreTheFiringRules(age: Option<int>, conditions: seq<string>, medications: seq<Option<string>>, r: RiskFactor)
    ensures r in RiskFactorsOf(age, conditions, medications) <==> Fires(r, age, conditions, medications)
    ensures multiset(RiskFactorsOf(age, conditions, medications))[r] <= 1
    ensures !(Elderly in RiskFactorsOf(age, conditions, medications) && Pediatric in RiskFactorsOf(age, conditions, medications))
  {
    var fired := FiredRules(age, conditions, medications);
    RiskFactorsAfterMembers(|RuleOrder|, fired, r);
    RiskFactorsAfterOnce(|RuleOrder|, fired, r);
    RiskFactorsAfterMembers(|RuleOrder|, fired, Elderly);
    RiskFactorsAfterMembers(|RuleOrder|, fired, Pediatric);
    assert RuleOrder[..|RuleOrder|] == RuleOrder;
    assert r in RuleOrder by {
      match r
      case Elderly => assert RuleOrder[0] == r;
      case Pediatric => assert RuleOrder[1] == r;
      case CardiacRisk => assert RuleOrder[2] == r;
      case DiabeticRisk => assert RuleOrder[3] == r;
      case RespiratoryRisk => assert RuleOrder[4] == r;
      case RenalRisk => assert RuleOrder[5] == r;
      case BleedingRisk => assert RuleOrder[6] == r;
      case HypoglycemiaRisk => assert RuleOrder[7] == r;
    }
  }

  /** Which rules are in `FiredRules`, one by one. */
  lemma FiredRulesMembers(age: Option<int>, conditions: seq<string>, medications: seq<Option<string>>)
    ensures var fired := FiredRules(age, conditions, medications);
      && (Elderly in fired <==> Fires(Elderly, age, conditions, medications))
      && (Pediatric in fired <==> Fires(Pediatric, age, conditions, medications))
      && (CardiacRisk in fired <==> Fires(CardiacRisk, age, conditions, medications))
      && (DiabeticRisk in fired <==> Fires(DiabeticRisk, age, conditions, medications))
      && (RespiratoryRisk in fired <==> Fires(RespiratoryRisk, age, conditions, medications))
      && (RenalRisk in fired <==> Fires(RenalRisk, age, conditions, medications))
      && (BleedingRisk in fired <==> Fires(BleedingRisk, age, conditions, medications))
      && (HypoglycemiaRisk in fired <==> Fires(HypoglycemiaRisk, age, conditions, medications))
  {
  }

  /** `determine_risk_factors`: appends one tag per rule that fires, in rule order. */
  method DetermineRiskFactors(age: Option<int>, conditions: seq<string>, medications: seq<Option<string>>)
    returns (factors: seq<RiskFactor>)
    ensures factors == RiskFactorsOf(age, conditions, medications)
  {
    factors := AgeAndChronicFactors(age, conditions, medications);
    factors := OrganAndMedicationFactors(age, conditions, medications, factors);
  }

  /** The first four rules of `determine_risk_factors`: age, heart, diabetes. */
  method AgeAndChronicFactors(age: Option<int>, conditions: seq<string>, medications: seq<Option<string>>)
    returns (factors: seq<RiskFactor>)
    ensures factors == RiskFactorsAfter(4, FiredRules(age, conditions, medications))
  {
    ghost var fired := FiredRules(age, conditions, medications);
    FiredRulesMembers(age, conditions, medications);
    factors := [];
    var a := AgeOr(age, 0);
    if a > 65 {
      factors := factors + [Elderly];
    }
    assert factors == RiskFactorsAfter(1, fired);
    if a < 18 {
      factors := factors + [Pediatric];
    }
    assert factors == RiskFactorsAfter(2, fired);
    if AnyCondition(conditions, ["heart_disease", "cardiac", "hypertension"]) {
      factors := factors + [CardiacRisk];
    }
    assert factors == RiskFactorsAfter(3, fired);
    if AnyCondition(conditions, ["diabetes", "diabetic"]) {
      factors := factors + [DiabeticRisk];
    }
  }

  /** The last four rules of `determine_risk_factors`: lungs, kidneys, medications. */
  method OrganAndMedicationFactors(age: Option<int>, conditions: seq<string>, medications: seq<Option<string>>, factors0: seq<RiskFactor>)
    returns (factors: seq<RiskFactor>)
    requires factors0 == RiskFactorsAfter(4, FiredRules(age, conditions, medications))
    ensures factors == RiskFactorsAfter(8, FiredRules(age, conditions, medications))
  {
    ghost var fired := FiredRules(age, conditions, medications);
    FiredRulesMembers(age, conditions, medications);
    factors := factors0;
    if AnyCondition(conditions, ["copd", "asthma", "respiratory"]) {
      factors := factors + [RespiratoryRisk];
    }
    assert factors == RiskFactorsAfter(5, fired);
    if AnyCondition(conditions, ["kidney", "renal"]) {
      factors := factors + [RenalRisk];
    }
    assert factors == RiskFactorsAfter(6, fired);
    if AnyMedicationContains(medications, "warfarin") || AnyMedicationContains(medications, "heparin") {
      factors := factors + [BleedingRisk];
    }
    assert factors == RiskFactorsAfter(7, fired);
    if AnyMedicationContains(medications, "insulin") {
      factors := factors + [HypoglycemiaRisk];
    }
  }

  // ---------------------------------------------------------------------------
  // Normal vitals (generate_normal_vitals)
  // ---------------------------------------------------------------------------

  /** The per-field draws: integer `randint`s for heart rate, pressures, respiratory rate
      and glucose, `uniform`s for oxygen and temperature. */
  datatype NormalDraws = NormalDraws(hr: int, o2: real, temp: real, sys: int, dia: int, rr: int, glucose: int)

  predicate NormalDrawsValid(d: NormalDraws) {
    -5 <= d.hr <= 5 && -1.0 <= d.o2 <= 1.0 && -0.3 <= d.temp <= 0.3 && -10 <= d.sys <= 10
    && -5 <= d.dia <= 5 && -2 <= d.rr <= 2 && -15 <= d.glucose <= 15
  }

  /** The band a normal reading of a field is held in. */
  function NormalBand(f: VitalField): (band: (real, real))
    ensures band.0 < band.1
  {
    match f
    case HeartRate => (50.0, 100.0)
    case OxygenLevel => (95.0, 100.0)
    case Temperature => (36.0, 38.0)
    case SystolicBP => (90.0, 140.0)
    case DiastolicBP => (60.0, 90.0)
    case RespiratoryRate => (12.0, 20.0)
    case Glucose => (80.0, 140.0)
  }

  /** The unscaled draw of a field. */
  function NormalDraw(d: NormalDraws, f: VitalField): real {
    match f
    case HeartRate => d.hr as real
    case OxygenLevel => d.o2
    case Temperature => d.temp
    case SystolicBP => d.sys as real
    case DiastolicBP => d.dia as real
    case RespiratoryRate => d.rr as real
    case Glucose => d.glucose as real
  }

  predicate InNormalBand(v: Vitals) {
    forall f :: NormalBand(f).0 <= v.Get(f) <= NormalBand(f).1
  }

  /** One field of a normal reading: `max(lo, min(hi, baseline[key] + draw * variation))`. */
  function NormalField(baseline: Vitals, variation: real, d: NormalDraws, f: VitalField): (x: real)
    ensures NormalBand(f).0 <= x <= NormalBand(f).1
  {
    Clamp(NormalBand(f).0, NormalBand(f).1, baseline.Get(f) + NormalDraw(d, f) * variation)
  }

  /** A normal reading: each field is the baseline plus its scaled draw, held in its band. */
  function GenerateNormalVitals(baseline: Vitals, variation: real, d: NormalDraws): (v: Vitals)
    requires NormalDrawsValid(d)
    ensures InNormalBand(v)
    ensures forall f :: v.Get(f) == NormalField(baseline, variation, d, f)
  {
    var v := Vitals(
      heartRate := NormalField(baseline, variation, d, HeartRate),
      oxygenLevel := NormalField(baseline, variation, d, OxygenLevel),
      temperature := NormalField(baseline, variation, d, Temperature),
      systolicBP := NormalField(baseline, variation, d, SystolicBP),
      diastolicBP := NormalField(baseline, variation, d, DiastolicBP),
      respiratoryRate := NormalField(baseline, variation, d, RespiratoryRate),
      glucose := NormalField(baseline, variation, d, Glucose));
    assert forall f :: v.Get(f) == NormalField(baseline, variation, d, f);
    v
  }

  /** Clamping a point of the band moved by an offset lands no further from it than the
      offset. */
  lemma ClampWithinOffset(lo: real, hi: real, c: real, offset: real)
    requires lo <= c <= hi
    ensures VitalsSimulator.AbsReal(Clamp(lo, hi, c + offset) - c) <= VitalsSimulator.AbsReal(offset)
  {
  }

  /** For a baseline inside its normal band, a field of a normal reading lies no further
      from the baseline than its scaled draw. */
  lemma NormalFieldStaysNearBaseline(baseline: Vitals, variation: real, d: NormalDraws, f: VitalField)
    requires NormalBand(f).0 <= baseline.Get(f) <= NormalBand(f).1
    ensures VitalsSimulator.AbsReal(NormalField(baseline, variation, d, f) - baseline.Get(f))
      <= VitalsSimulator.AbsReal(NormalDraw(d, f) * variation)
  {
    ClampWithinOffset(NormalBand(f).0, NormalBand(f).1, baseline.Get(f), NormalDraw(d, f) * variation);
  }

  /** With no variation a baseline inside the normal bands is reproduced exactly. */
  lemma NormalVitalsWithoutVariation(baseline: Vitals, d: NormalDraws)
    requires NormalDrawsValid(d) && InNormalBand(baseline)
    ensures GenerateNormalVitals(baseline, 0.0, d) == baseline
  {
    var v := GenerateNormalVitals(baseline, 0.0, d);
    forall g ensures v.Get(g) == baseline.Get(g) {
      assert NormalBand(g).0 <= baseline.Get(g) <= NormalBand(g).1;
      assert v.Get(g) == NormalField(baseline, 0.0, d, g);
    }
    VitalsExtensional(v, baseline);
  }

  // ---------------------------------------------------------------------------
  // Alerts (create_alert)
  // ---------------------------------------------------------------------------

  /** The alert `type` of a level. */
  function AlertTypeOf(level: AlertLevel): (t: string)
    ensures t == "critical" <==> level == Critical
    ensures t == "info" <==> level == Low
    ensures t == "warning" <==> level in {Medium, High}
  {
    match level
    case Low => "info"
    case Medium => "warning"
    case High => "warning"
    case Critical => "critical"
  }

  /** A value of a vitals dictionary: a number or a nested record such as
      `bloodPressure`. */
  datatype Reading = Number(x: real) | Group(parts: map<string, real>)

  /** The keys `create_alert` copies by name. */
  const AlertVitalKeys: seq<string> := ["heartRate", "oxygenLevel", "temperature", "respiratoryRate"]

  /** The vitals dictionary an anomaly produces: the seven numeric fields, no nested
      blood pressure. */
  function AsDict(v: Vitals): map<string, Option<Reading>> {
    map[
      "heartRate" := Some(Number(v.heartRate)),
      "oxygenLevel" := Some(Number(v.oxygenLevel)),
      "temperature" := Some(Number(v.temperature)),
      "systolicBP" := Some(Number(v.systolicBP)),
      "diastolicBP" := Some(Number(v.diastolicBP)),
      "respiratoryRate" := Some(Number(v.respiratoryRate)),
      "glucose" := Some(Number(v.glucose))]
  }

  /** `vitals.get(key)`: absent keys and null values both read as none. */
  function GetOr(vitals: map<string, Option<Reading>>, key: string, default: Option<Reading>): Option<Reading> {
    if key in vitals then vitals[key] else default
  }

  /** The readings `create_alert` copies by name, none-valued ones dropped. */
  function PickedReadings(vitals: map<string, Option<Reading>>): (picked: map<string, Reading>)
    ensures forall k :: k in picked <==> k in AlertVitalKeys && k in vitals && vitals[k].Some?
    ensures forall k :: k in picked ==> Some(picked[k]) == vitals[k]
  {
    map k | k in AlertVitalKeys && k in vitals && vitals[k].Some? :: vitals[k].value
  }

  /** The cleaned alert vitals as written: the four named readings and
      `vitals.get('bloodPressure', {})`, with none-valued entries removed. */
  function CleanVitalsAsWritten(vitals: map<string, Option<Reading>>): (clean: map<string, Reading>)
    ensures forall k :: k != "bloodPressure" ==> (k in clean <==> k in AlertVitalKeys && k in vitals && vitals[k].Some?)
    ensures forall k :: k in clean && k != "bloodPressure" ==> Some(clean[k]) == vitals[k]
    ensures "bloodPressure" in clean <==> !("bloodPressure" in vitals && vitals["bloodPressure"].None?)
    ensures "bloodPressure" in clean ==>
      clean["bloodPressure"] == if "bloodPressure" in vitals then vitals["bloodPressure"].value else Group(map[])
  {
    var pressure := GetOr(vitals, "bloodPressure", Some(Group(map[])));
    if pressure.Some? then PickedReadings(vitals)["bloodPressure" := pressure.value] else PickedReadings(vitals)
  }

  /** The alert for an anomaly is built before the pressures are folded into a nested
      `bloodPressure`, so its vitals always carry an empty blood pressure and never the
      glucose, even for a hypertensive crisis. */
  lemma AnomalyAlertLosesBloodPressure(v: Vitals)
    ensures "bloodPressure" in CleanVitalsAsWritten(AsDict(v))
    ensures CleanVitalsAsWritten(AsDict(v))["bloodPressure"] == Group(map[])
    ensures "glucose" !in CleanVitalsAsWritten(AsDict(v))
  {
    assert "bloodPressure" !in AsDict(v);
    assert "glucose" !in AlertVitalKeys;
  }

  /** The cleaned alert vitals with the blood pressure taken from the systolic and
      diastolic readings when no nested record is present. */
  function CleanVitals(vitals: map<string, Option<Reading>>): (clean: map<string, Reading>)
    ensures forall k :: k != "bloodPressure" ==> (k in clean <==> k in AlertVitalKeys && k in vitals && vitals[k].Some?)
    ensures forall k :: k in clean && k != "bloodPressure" ==> Some(clean[k]) == vitals[k]
    ensures "bloodPressure" in clean <==> !("bloodPressure" in vitals && vitals["bloodPressure"].None?)
    ensures "bloodPressure" in vitals && vitals["bloodPressure"].Some? ==> clean["bloodPressure"] == vitals["bloodPressure"].value
  {
    var sys, dia := GetOr(vitals, "systolicBP", None), GetOr(vitals, "diastolicBP", None);
    var pressure :=
      if "bloodPressure" in vitals then vitals["bloodPressure"]
      else if sys.Some? && sys.value.Number? && dia.Some? && dia.value.Number? then
        Some(Group(map["systolic" := sys.value.x, "diastolic" := dia.value.x]))
      else Some(Group(map[]));
    if pressure.Some? then PickedReadings(vitals)["bloodPressure" := pressure.value] else PickedReadings(vitals)
  }

  /** With the correction an anomaly alert carries the pressures the anomaly produced. */
  lemma AnomalyAlertKeepsBloodPressure(v: Vitals)
    ensures "bloodPressure" in CleanVitals(AsDict(v))
    ensures CleanVitals(AsDict(v))["bloodPressure"] == Group(map["systolic" := v.systolicBP, "diastolic" := v.diastolicBP])
  {
    assert "bloodPressure" !in AsDict(v);
  }

  /** The four readings `create_alert` copies from an anomaly's flat vitals. */
  lemma PickedAnomalyReadings(v: Vitals)
    ensures PickedReadings(AsDict(v)) == map[
      "heartRate" := Number(v.heartRate), "oxygenLevel" := Number(v.oxygenLevel),
      "temperature" := Number(v.temperature), "respiratoryRate" := Number(v.respiratoryRate)]
  {
    var d, picked := AsDict(v), PickedReadings(AsDict(v));
    assert forall k :: k in AlertVitalKeys <==> k in {"heartRate", "oxygenLevel", "temperature", "respiratoryRate"};
    assert forall k :: k in d ==> d[k].Some?;
  }

  /** An anomaly alert as `create_alert` builds it; the message, the recommendations and
      the environmental values are not part of this model. */
  datatype AnomalyAlert = AnomalyAlert(
    monitorId: string, patientId: string, resolved: bool, timestamp: string, alertType: string,
    vitals: map<string, Reading>)

  /** A fresh, unresolved alert as `create_alert` builds it from an anomaly's flat
      vitals: the type follows the level, the four named readings are copied, and the
      blood pressure is the `{}` default because the flat dictionary has no nested
      record; glucose and the separate pressures are dropped. */
  function CreateAlert(deviceId: string, patientId: string, level: AlertLevel, vitals: Vitals, timestamp: string)
    : (alert: AnomalyAlert)
    ensures !alert.resolved && alert.monitorId == deviceId && alert.patientId == patientId
    ensures alert.timestamp == timestamp && alert.alertType == AlertTypeOf(level)
    ensures alert.vitals.Keys == {"heartRate", "oxygenLevel", "temperature", "respiratoryRate", "bloodPressure"}
    ensures alert.vitals["heartRate"] == Number(vitals.heartRate)
    ensures alert.vitals["oxygenLevel"] == Number(vitals.oxygenLevel)
    ensures alert.vitals["temperature"] == Number(vitals.temperature)
    ensures alert.vitals["respiratoryRate"] == Number(vitals.respiratoryRate)
    ensures alert.vitals["bloodPressure"] == Group(map[])
  {
    AnomalyAlertLosesBloodPressure(vitals);
    PickedAnomalyReadings(vitals);
    AnomalyAlert(deviceId, patientId, false, timestamp, AlertTypeOf(level), CleanVitalsAsWritten(AsDict(vitals)))
  }

  /** The corrected alert: the same record, but its blood pressure nests the anomaly's
      systolic and diastolic readings. */
  function CreateAlertCorrected(deviceId: string, patientId: string, level: AlertLevel, vitals: Vitals, timestamp: string)
    : (alert: AnomalyAlert)
    ensures !alert.resolved && alert.monitorId == deviceId && alert.patientId == patientId
    ensures alert.timestamp == timestamp && alert.alertType == AlertTypeOf(level)
    ensures alert.vitals.Keys == {"heartRate", "oxygenLevel", "temperature", "respiratoryRate", "bloodPressure"}
    ensures alert.vitals["heartRate"] == Number(vitals.heartRate)
    ensures alert.vitals["oxygenLevel"] == Number(vitals.oxygenLevel)
    ensures alert.vitals["temperature"] == Number(vitals.temperature)
    ensures alert.vitals["respiratoryRate"] == Number(vitals.respiratoryRate)
    ensures alert.vitals["bloodPressure"] == Group(map["systolic" := vitals.systolicBP, "diastolic" := vitals.diastolicBP])
  {
    AnomalyAlertKeepsBloodPressure(vitals);
    PickedAnomalyReadings(vitals);
    AnomalyAlert(deviceId, patientId, false, timestamp, AlertTypeOf(level), CleanVitals(AsDict(vitals)))
  }
}
