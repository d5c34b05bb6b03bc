# SmartHospitalBackend core, modelled in Dafny

This project models the decision logic of the SmartHospitalBackend FastAPI service and proves what it guarantees. Every module is listed below with the behaviour it models:

- **Common** (`common.dfy`): Python's `str.lower()`, `sub in s` and `", ".join(...)` on ASCII text, and an `Option` type.
- **VitalSigns** (`vital_signs.dfy`): the seven vital-sign fields both simulators key their dictionaries by, held as a record, and the `max(lo, min(hi, x))` clamp.
- **Auth** (`auth.dfy`): the role hierarchy of `validate_role` in `app/auth_utils.py`.
- **VitalsSimulator** (`vitals_simulator.dfy`): the per-tick pipeline of `app/vitals_simulator.py`. It covers:
  - age- and condition-based baselines and the state-specific trend seeds;
  - the trend step, which decrements a trend's duration in place;
  - multiplicative condition modifiers and decaying medication effects;
  - cross-vital correlation and the hard clamps on vitals and room readings;
  - Firebase timestamp sanitising, the room-type pick and the mapping of a database patient's status to a simulation state;
  - the simulator object whose vitals cache each tick rewrites.
- **ScenarioSim** (`scenario_sim.dfy`): the anomaly and hazard selection of `app/data_simulation_v2.py`. It covers:
  - probability scaling by conditions, age, state and room type;
  - the "first draw that succeeds wins" pick in declaration order;
  - the deterministic vitals each anomaly produces and the environment each hazard produces;
  - baselines, risk factors and clamped normal readings of a patient profile;
  - the alert type and cleaned vitals of `create_alert`, as it is called for an anomaly and as corrected under Findings.
- **AnomalyRules** (`anomalies.dfy`): the rule-based side of `app/routers/anomalies.py`. It covers:
  - the threshold ladder of `check_vital_thresholds`;
  - `rule_based_detection_only` and the rule merge of `detect_anomaly_with_model`, which update one result object in place;
  - `generate_alert_message` and the log key and alert that `save_anomaly_log` writes;
  - the filter and sort of `get_active_alerts`.
- **Wards** (`wards.dfy`): the Firebase collections `beds`, `patients`, `rooms` and `iotData` as tables. Each bed, room, patient and device operation of `app/routers/beds.py` and `app/routers/rooms.py` is a function from the tables before it to the tables after it and its HTTP answer. The lemmas state the error cases, the placements and what is left alone.
- **HospitalStore** (`store.dfy`): the same operations as methods of a `Store` class whose map fields they update in place. Each method is proved to leave the store as the matching Wards function says, and each keeps the store's invariant that the Firebase bed order lists every bed once, so the Wards lemmas apply after any sequence of calls.
- **Occupancy** (`occupancy.dfy`): the counting loops of `get_bed_occupancy_stats` and `get_room_occupancy_stats`. Each is given both as written and corrected, as described under Findings.

Every `random.*` draw is a parameter whose range is a precondition. So are the current hour, `now`, the circadian `cos`/`sin` multipliers, the time since a medication was given and the Isolation Forest's prediction and score. Numbers are `real`.

Python dictionaries iterate in insertion order. The model therefore follows the order the source declares its tables in: anomaly types, hazards and threshold keys are tried in that order. The order in which Firebase hands back a collection's children is part of the store (`bedOrder`). The order of Python sets and of the `rooms` collection is left open.

## Model

| member | source | states |
|---|---|---|
| Common.Lower | app/auth_utils.py:72-73 | `lower()` keeps the length and lower-cases each ASCII capital in place, leaving every other character alone |
| Common.LowerIdempotent | app/auth_utils.py:72-73 | lower-casing twice is lower-casing once |
| Common.Join | app/routers/anomalies.py:296 | joining a single part gives that part |
| Common.JoinContainsEachPart | app/routers/anomalies.py:296 | every joined part occurs in the joined string |
| VitalSigns.Clamp | app/vitals_simulator.py:503-509 | `max(lo, min(hi, x))` lies in [lo, hi] and keeps a value already inside |
| Auth.RoleLevel | app/auth_utils.py:66-73 | staff, doctor and admin (in any letter case) get 1, 2 and 3; every other role gets 0, and only those |
| Auth.ValidateRole | app/auth_utils.py:64-75 | passes iff the user's level is at least the required level; a role always passes against itself; an unknown required role always passes; an unknown user role fails any known required role |
| Auth.ValidateRoleIgnoresCase | app/auth_utils.py:72-73 | the verdict is the same after lower-casing both role names |
| Auth.HierarchyFacts | app/auth_utils.py:64-75 | a role passing "doctor" passes "staff"; "admin" passes every required role; only a role that lower-cases to "admin" passes "admin" |
| VitalsSimulator.AgeBand | app/vitals_simulator.py:166-177 | heart rate, systolic and diastolic are 90/105/65 under 18, 70/120/80 from 18 to 64 and 75/130/85 from 65 |
| VitalsSimulator.GetBaselineVitalsForPatient | app/vitals_simulator.py:163-204 | the baseline built field by field equals the age band plus O2 98, temperature 37.0, RR 16, glucose 100 and one shift per listed condition |
| VitalsSimulator.BaselineWithoutConditions | app/vitals_simulator.py:179-187 | with no conditions, O2 98, temperature 37.0, RR 16 and glucose 100 hold at every age beside the age band |
| VitalsSimulator.BaselineConditionIsIndependent | app/vitals_simulator.py:189-202 | listing one more condition moves each field by exactly that condition's own amount (hypertension +15/+10, diabetes +30, copd -6/+6, asthma -2/+2, cardiac_arrhythmia +15) and nothing else |
| VitalsSimulator.StepAll | app/vitals_simulator.py:335-338 | stepping every trend keeps the same set of vitals |
| VitalsSimulator.TrendMagnitude | app/vitals_simulator.py:245-253 | every vital's trend magnitude is positive |
| VitalsSimulator.TrendSeed | app/vitals_simulator.py:255-272 | a seed's direction is in -1..1, is 0 exactly when its duration is 0; critical seeds HR +1 for 10, O2 -1 for 8, RR +1 for 12; a state other than critical, recovering or deteriorating seeds nothing |
| VitalsSimulator.InitializeTrendsForPatient | app/vitals_simulator.py:243-274 | the table holds a trend for every vital with that vital's magnitude and the state's seed as direction and duration |
| VitalsSimulator.StateModifier | app/vitals_simulator.py:324-331 | volatility is in (0, 0.1] and trend strength in (0, 0.5]; an unknown state gets the stable constants 0.02 and 0.1 |
| VitalsSimulator.Centered | app/vitals_simulator.py:341 | a draw in [0, 1) becomes a value in [-1, 1) |
| VitalsSimulator.NoiseBounds | app/vitals_simulator.py:341 | the noise lies in [-volatility·baseline, volatility·baseline) for a non-negative amplitude, mirrored for a negative one |
| VitalsSimulator.ScaledDrawBounds | app/vitals_simulator.py:341 | a value in [-1, 1) times an amplitude stays within that amplitude |
| VitalsSimulator.Revert | app/vitals_simulator.py:344-346 | result − baseline = 0.95·(value − baseline), so the value moves toward the baseline and never past it |
| VitalsSimulator.TrendsApplied | app/vitals_simulator.py:486-489 | every vital is stepped with its own trend entry and noise draw |
| VitalsSimulator.TrendsPrefixAt | app/vitals_simulator.py:486-489 | after i passes of the trend loop exactly the first i vitals in loop order are stepped |
| VitalsSimulator.StepPrefixAt | app/vitals_simulator.py:486-489 | after i passes exactly the trends of the first i vitals have counted down |
| VitalsSimulator.IdleTrendRevertsTowardBaseline | app/vitals_simulator.py:333-346 | without an active trend the new distance to the baseline is at most 95% of the old distance plus the noise amplitude |
| VitalsSimulator.GenerateTrend | app/vitals_simulator.py:322-348 | the value is the trend effect (only while duration > 0) plus noise, pulled 5% to the baseline; the trend's duration drops by exactly 1 when positive and is unchanged otherwise |
| VitalsSimulator.StepTrends | app/vitals_simulator.py:486-489 | the loop leaves every vital stepped once and every trend counted down once |
| VitalsSimulator.ConditionModifier | app/vitals_simulator.py:293-313 | every factor the table defines is positive |
| VitalsSimulator.ModifierFactor | app/vitals_simulator.py:317-318 | the factor a condition applies is positive (1 where the table defines none) |
| VitalsSimulator.Factors | app/vitals_simulator.py:316-318 | one positive factor per listed condition, in list order, each the table's entry or 1 |
| VitalsSimulator.ApplyConditionModifiers | app/vitals_simulator.py:291-320 | the accumulated value is the input multiplied by each listed condition's factor in turn |
| VitalsSimulator.ConditionsStep | app/vitals_simulator.py:316-318 | applying the conditions from position i is applying the i-th factor and then the rest |
| VitalsSimulator.ApplyModifier | app/vitals_simulator.py:317-318 | one loop pass multiplies by the condition's factor, or leaves the value alone when the table has none |
| VitalsSimulator.ConditionsScale | app/vitals_simulator.py:315-320 | the modifiers multiply the value by the product of every listed condition's factor |
| VitalsSimulator.ConditionsNeutral | app/vitals_simulator.py:317 | conditions the table does not know, or that do not define the vital, leave the value unchanged |
| VitalsSimulator.ConditionsKeepSign | app/vitals_simulator.py:293-318 | every factor is positive, so the modifiers keep a positive vital positive |
| VitalsSimulator.ConditionsAppliedAll | app/vitals_simulator.py:482-484 | each vital gets the modifiers for its own field |
| VitalsSimulator.ApplyAllConditionModifiers | app/vitals_simulator.py:482-484 | the loop over the vitals leaves every vital with its condition modifiers applied |
| VitalsSimulator.MedicationEffectOf | app/vitals_simulator.py:378-397 | every known medication has a positive duration |
| VitalsSimulator.Strength | app/vitals_simulator.py:403 | max(0.3, 1 − elapsed/duration) is at least 0.3 and at most 1 for a non-negative elapsed time |
| VitalsSimulator.StrengthDecays | app/vitals_simulator.py:403 | a longer elapsed time never gives a stronger effect |
| VitalsSimulator.ScaleBetween | app/vitals_simulator.py:407 | scaling a difference by a strength in [0, 1] keeps it between 0 and the full difference |
| VitalsSimulator.AppliedFactorBetween | app/vitals_simulator.py:407 | (adj − 1)·strength + 1 lies between adj and 1 |
| VitalsSimulator.Decayed | app/vitals_simulator.py:405-407 | each adjustment keeps its vital and gets the strength-scaled factor |
| VitalsSimulator.ApplyAdjustments | app/vitals_simulator.py:405-408 | the inner loop multiplies each named vital by its decayed factor, in table order |
| VitalsSimulator.CheckMedicationEffects | app/vitals_simulator.py:373-410 | the outer loop applies every listed medication that is known and still acting, in list order |
| VitalsSimulator.InactiveMedicationsAreNeutral | app/vitals_simulator.py:400-401 | medications not in the table, or with elapsed ≥ their duration, change nothing |
| VitalsSimulator.MultipliedUntouched | app/vitals_simulator.py:405-408 | adjustments that do not name a vital leave it alone |
| VitalsSimulator.MultipliedSingle | app/vitals_simulator.py:405-408 | when adjustments name each vital once, a named vital is multiplied by exactly its own factor |
| VitalsSimulator.ActiveMedicationScalesNamedVital | app/vitals_simulator.py:399-408 | an acting medication multiplies each vital it names by a factor between its full adjustment and 1 |
| VitalsSimulator.ActiveEffectScalesNamedVital | app/vitals_simulator.py:401-408 | the same for any acting effect record whose adjustments name each vital once |
| VitalsSimulator.AdjustmentScalesNamedVital | app/vitals_simulator.py:405-408 | with a strength in [0, 1] each adjustment scales its vital by a factor between the adjustment and 1 |
| VitalsSimulator.MedicationLeavesOtherVitals | app/vitals_simulator.py:405-406 | a medication leaves every vital its entry does not name unchanged |
| VitalsSimulator.ArrhythmiaJitter | app/vitals_simulator.py:369 | the irregular-beat jitter lies in [-20, 20) |
| VitalsSimulator.CompensatedHeartRate | app/vitals_simulator.py:352-359 | the heart rate gains 8·(temp − 37), plus 2·(95 − O2) only when O2 < 95 |
| VitalsSimulator.DivSign | app/vitals_simulator.py:362 | the heart-rate deviation has the sign of the heart rate minus its positive baseline |
| VitalsSimulator.CorrelateVitals | app/vitals_simulator.py:350-371 | O2, temperature, RR and glucose are untouched; HR is the compensated rate within ±20 and jitters only with cardiac_arrhythmia and a draw < 0.3; systolic moves twice as far as diastolic; the pressures rise iff the compensated HR is at least the baseline |
| VitalsSimulator.GenerateEmergencyScenario | app/vitals_simulator.py:412-417 | an emergency happens exactly when the draw is below 0.001 |
| VitalsSimulator.EmergencyApplied | app/vitals_simulator.py:419-448 | each vital is multiplied by the scenario's table entry (1 where it names none); diastolic pressure and glucose never change |
| VitalsSimulator.ClampVitals | app/vitals_simulator.py:502-509 | the result lies in HR [30,200], O2 [70,100], temp [32,42], sys [60,250], dia [40,150], RR [8,50], glucose [40,600], and a reading already in bounds is unchanged |
| VitalsSimulator.ClampEnvironment | app/vitals_simulator.py:658-665 | the result lies in temp [18,28], humidity [30,70], air quality [70,100], light [0,100], noise [20,80], pressure [1010,1020], CO2 [350,800], and a reading already in bounds is unchanged |
| VitalsSimulator.ClampIsIdempotent | app/vitals_simulator.py:502-509 | clamping a clamped reading (vitals or environment) changes nothing |
| VitalsSimulator.ReplaceDotsAndColons | app/vitals_simulator.py:453 | same length; every `.` and `:` becomes `-`, every other character stays in place |
| VitalsSimulator.StripFirebaseInvalid | app/vitals_simulator.py:455 | no longer than the input; contains none of `#$[]` and only characters of the input |
| VitalsSimulator.SanitizeTimestamp | app/vitals_simulator.py:450-456 | the output contains no `.`, `:`, `#`, `$`, `[` or `]` and is no longer than the input |
| VitalsSimulator.KeptOfReplace | app/vitals_simulator.py:453 | the replacement keeps every character outside `.:-#$[]`, in order |
| VitalsSimulator.KeptOfStrip | app/vitals_simulator.py:455 | the removal keeps every character outside `.:-#$[]`, in order |
| VitalsSimulator.SanitizeKeepsOtherCharacters | app/vitals_simulator.py:450-456 | every character other than `.:-#$[]` survives sanitising, in the same order |
| VitalsSimulator.ReplaceFixesSafe | app/vitals_simulator.py:453 | a string without `.` or `:` is left unchanged by the replacement |
| VitalsSimulator.StripFixesSafe | app/vitals_simulator.py:455 | a string without `#$[]` is left unchanged by the removal |
| VitalsSimulator.SanitizeIdempotent | app/vitals_simulator.py:450-456 | sanitising twice equals sanitising once |
| VitalsSimulator.SimulationState | app/vitals_simulator.py:127-134 | the state is one of stable, critical, recovering, deteriorating; "improving" (any case) maps to recovering; stable, critical and deteriorating map to themselves; a missing or unknown status maps to stable |
| VitalsSimulator.SensorRoomType | app/vitals_simulator.py:576-583 | ICU iff the lower-cased room id contains "icu"; isolation iff it contains "isolation" but not "icu"; general otherwise |
| VitalsSimulator.InitialEnvironmentalData | app/vitals_simulator.py:543-594 | the first reading's temperature, pressure and CO2 lie within the draw ranges around the room type's baseline |
| VitalsSimulator.TargetLight | app/vitals_simulator.py:634-638 | from 6 to 22 h the target light lies in [108, 124] and peaks at 124 exactly at 14 h; at night it is 20 |
| VitalsSimulator.NextEnvironment | app/vitals_simulator.py:614-656 | pressure moves by exactly its draw; humidity moves by its draw, one point lower when the temperature rose |
| VitalsSimulator.ConvertDbPatientToSimulationFormat | app/vitals_simulator.py:116-149 | missing age becomes 50 and missing name "Unknown Patient"; medication names default to ""; the state is the mapped status; the baseline is the age/condition baseline; the trends are freshly seeded for the state |
| VitalsSimulator.RoutineTickSteps | app/vitals_simulator.py:474-495 | circadian rhythm, condition modifiers, trends, medication and correlations applied in that order; the trends come back counted down once |
| VitalsSimulator.ApplyEmergencyScenario | app/vitals_simulator.py:419-448 | the vitals get the emergency's multipliers and the patient's state becomes "critical", nothing else of the patient changes |
| VitalsSimulator.Ticked | app/vitals_simulator.py:486-500 | a tick changes only the patient's trend durations and, after an emergency, its state |
| VitalsSimulator.PatientTick | app/vitals_simulator.py:473-509 | the reading is the clamped result of the whole pipeline and lies within the vital bounds; the patient is updated as Ticked and stays well formed |
| VitalsSimulator.Simulator.constructor | app/vitals_simulator.py:16-23 | a new simulator has no patients, sensors or cached readings |
| VitalsSimulator.Simulator.GeneratePatientVitals | app/vitals_simulator.py:458-512 | an unknown patient gives None and changes nothing; otherwise the reading starts from the cache (or the baseline when uncached), is the clamped pipeline result, replaces the cache entry, and the patient record is Ticked |
| VitalsSimulator.Simulator.GenerateEnvironmentalData | app/vitals_simulator.py:596-668 | an unknown sensor gives None and changes nothing; otherwise the reading starts from the cache (or the room type's initial data), is the clamped step, lies within the environment bounds, and replaces the cache entry |
| ScenarioSim.ScenarioIndex | app/data_simulation_v2.py:84-96 | every drawable anomaly type has exactly one position in the table's declaration order |
| ScenarioSim.BaseProbability | app/data_simulation_v2.py:84-96 | every table probability lies strictly between 0 and 1 |
| ScenarioSim.ConditionFactor | app/data_simulation_v2.py:103-117 | every condition factor is at least 1 |
| ScenarioSim.ConditionScaled | app/data_simulation_v2.py:100-117 | the condition factors never lower a probability below its base |
| ScenarioSim.AdjustedProbability | app/data_simulation_v2.py:100-125 | the adjusted probability is at least the base; the critical state doubles the age-scaled value; past 70 (not critical) it is 1.5 times the condition-scaled value |
| ScenarioSim.AnomalyProbabilities | app/data_simulation_v2.py:100-125 | one adjusted probability per drawable type, in declaration order |
| ScenarioSim.FirstBelow | app/data_simulation_v2.py:128-132 | the first position whose draw is below its probability, with every earlier draw failing; none exactly when every draw fails |
| ScenarioSim.FirstBelowIs | app/data_simulation_v2.py:128-132 | a position that succeeds after only failures is the one picked |
| ScenarioSim.FirstBelowMonotone | app/data_simulation_v2.py:128-132 | raising every probability can only make a success come, and come no later |
| ScenarioSim.PickAt | app/data_simulation_v2.py:128-132 | a picked position names the key at that position, and nothing is picked without one |
| ScenarioSim.AnomalyTriggered | app/data_simulation_v2.py:98-132 | at most one type: the first in declaration order whose draw is below its adjusted probability; none exactly when every draw fails |
| ScenarioSim.ScenarioOrderDistinct | app/data_simulation_v2.py:84-96 | no anomaly type is listed twice |
| ScenarioSim.ScaleAll | app/data_simulation_v2.py:119-125 | multiplying every entry by a factor keeps the keys and scales each value exactly once |
| ScenarioSim.InOrder | app/data_simulation_v2.py:128 | the table's values listed in its key order |
| ScenarioSim.FirstTriggered | app/data_simulation_v2.py:127-132 | the loop returns the key of the first succeeding draw, or None |
| ScenarioSim.HeartDiseaseBlock | app/data_simulation_v2.py:103-106 | with heart_disease, arrhythmia ×3 and tachy/bradycardia ×2; no other entry changes |
| ScenarioSim.HypertensionBlock | app/data_simulation_v2.py:108-109 | with hypertension, hypertensive crisis ×4; no other entry changes |
| ScenarioSim.DiabetesBlock | app/data_simulation_v2.py:111-113 | with diabetes, hyperglycemia ×5 and hypoglycemia ×3; no other entry changes |
| ScenarioSim.RespiratoryBlock | app/data_simulation_v2.py:115-117 | with copd or asthma, respiratory distress ×4 and hypoxemia ×3; no other entry changes |
| ScenarioSim.ConditionAdjusted | app/data_simulation_v2.py:100-117 | after the four blocks every entry is its base times its condition factor |
| ScenarioSim.AdjustedProbabilities | app/data_simulation_v2.py:100-125 | the table holds every drawable type with its adjusted probability |
| ScenarioSim.ShouldTriggerAnomaly | app/data_simulation_v2.py:98-132 | returns exactly the first type in declaration order whose draw succeeds, or None |
| ScenarioSim.RiskOnlyRaisesChances | app/data_simulation_v2.py:100-132 | on the same draws, any patient sees an anomaly whenever a patient without risk factors would |
| ScenarioSim.HazardIndex | app/data_simulation_v2.py:210-217 | every hazard has a position in the table's declaration order |
| ScenarioSim.HazardOrderComplete | app/data_simulation_v2.py:210-217 | every hazard is listed, exactly once |
| ScenarioSim.BaseHazardProbability | app/data_simulation_v2.py:210-217 | every hazard probability lies strictly between 0 and 1 |
| ScenarioSim.HazardProbability | app/data_simulation_v2.py:221-229 | halved for icu and emergency, times 1.2 for general_ward, unchanged for any other room type |
| ScenarioSim.HazardProbabilities | app/data_simulation_v2.py:221-229 | one room-type probability per hazard, in declaration order |
| ScenarioSim.HazardTriggered | app/data_simulation_v2.py:231-235 | the first hazard in declaration order whose draw is below its probability, every earlier draw failing; none exactly when every draw fails |
| ScenarioSim.ShouldTriggerEnvironmentalHazard | app/data_simulation_v2.py:219-235 | copying and scaling the table, then looping over the draws, returns exactly that hazard |
| ScenarioSim.HazardTableInOrder | app/data_simulation_v2.py:221-231 | the scaled table lists the room-type probabilities in declaration order |
| ScenarioSim.IcuHazardImpliesWardHazard | app/data_simulation_v2.py:221-235 | on the same draws an ICU room triggers only when a general ward would, and the ward's hazard comes no later |
| ScenarioSim.AtLeast | app/data_simulation_v2.py:153 | max(lo, x) is at least both and equals one of them |
| ScenarioSim.AtMost | app/data_simulation_v2.py:197 | min(hi, x) is at most both and equals one of them |
| ScenarioSim.GenerateAnomalyVitals | app/data_simulation_v2.py:134-204 | fields the branch does not name equal the baseline; each branch's bounds and level: arrhythmia HR in [40,200]; hypertensive crisis CRITICAL iff sys > 180; hypotensive shock always CRITICAL with sys ≥ 60, dia ≥ 40; respiratory distress O2 ≥ 75; hypoxemia O2 ≥ 70; hypothermia floors 32/40/8; hypoglycemia ≥ 30; tachycardia HR ≤ 220; bradycardia HR ≥ 30; a type with no branch leaves the baseline and LOW |
| ScenarioSim.GenerateEnvironmentalData | app/data_simulation_v2.py:452-474 | humidity in [30,70], air quality in [50,100], noise ≥ 25, CO2 ≥ 350, light ≥ 200; temperature within 1 of the baseline (or the default baseline); no particle count |
| ScenarioSim.GenerateHazardEnvironmentalData | app/data_simulation_v2.py:237-272 | each hazard changes only its own fields, in the right direction and within its floor or ceiling, with its level; a lighting failure changes nothing and stays LOW; contamination adds at least 500 particles to the current count (100 when absent) |
| ScenarioSim.LowerAll | app/data_simulation_v2.py:350 | every name lower-cased, in order |
| ScenarioSim.CalculateBaselineVitals | app/data_simulation_v2.py:402-435 | the baseline built field by field equals the profile baseline: age bands with RR 20/16/18, O2 98, temperature 37.0, glucose 100, and one shift per lower-cased condition; a missing age counts as 50 |
| ScenarioSim.ProfileBaselineMatchesSimulator | app/data_simulation_v2.py:404-435 | the profile baseline equals the simulator's baseline in every field except RR (+4 under 18, +2 from 65) and HR (no cardiac_arrhythmia shift) |
| ScenarioSim.ProfileBaselineIgnoresCase | app/data_simulation_v2.py:405 | conditions are lower-cased before matching, so their letter case does not matter |
| ScenarioSim.RuleOrderDistinct | app/data_simulation_v2.py:377-398 | no risk rule is tried twice |
| ScenarioSim.RiskFactorsAfterMembers | app/data_simulation_v2.py:377-398 | after k rules a tag is present iff its rule is among the first k and fired |
| ScenarioSim.RiskFactorsAfterOnce | app/data_simulation_v2.py:377-398 | after k rules no tag is present twice |
| ScenarioSim.RiskFactorsAreTheFiringRules | app/data_simulation_v2.py:373-400 | the tags are exactly the rules that fire, each at most once: elderly iff age > 65, pediatric iff age < 18 (never both), cardiac_risk iff a lower-cased condition is heart_disease, cardiac or hypertension, bleeding_risk iff a lower-cased medication name contains warfarin or heparin, and so on |
| ScenarioSim.FiredRulesMembers | app/data_simulation_v2.py:377-398 | a rule is in the fired set exactly when its condition holds |
| ScenarioSim.DetermineRiskFactors | app/data_simulation_v2.py:373-400 | appending one tag per firing rule, in rule order, yields the tags of the firing rules |
| ScenarioSim.AgeAndChronicFactors | app/data_simulation_v2.py:375-388 | the first four appends yield the tags of the first four firing rules |
| ScenarioSim.OrganAndMedicationFactors | app/data_simulation_v2.py:389-398 | the last four appends complete the tags of all eight firing rules |
| ScenarioSim.NormalBand | app/data_simulation_v2.py:442-448 | every normal band is non-empty |
| ScenarioSim.NormalField | app/data_simulation_v2.py:442-448 | each field is clamped into its band |
| ScenarioSim.GenerateNormalVitals | app/data_simulation_v2.py:437-450 | HR [50,100], O2 [95,100], temp [36,38], sys [90,140], dia [60,90], RR [12,20], glucose [80,140], each the clamped baseline plus its scaled draw |
| ScenarioSim.ClampWithinOffset | app/data_simulation_v2.py:442-448 | clamping a point of the band moved by an offset lands no further from it than the offset |
| ScenarioSim.NormalFieldStaysNearBaseline | app/data_simulation_v2.py:442-448 | for a baseline inside its band, a normal reading lies no further from it than the scaled draw |
| ScenarioSim.NormalVitalsWithoutVariation | app/data_simulation_v2.py:437-450 | with variation 0 a baseline inside the bands is reproduced exactly |
| ScenarioSim.AlertTypeOf | app/data_simulation_v2.py:486-491 | LOW → info, MEDIUM and HIGH → warning, CRITICAL → critical, both directions |
| ScenarioSim.PickedReadings | app/data_simulation_v2.py:494-503 | exactly the four named readings that are present and not None, with their values |
| ScenarioSim.CleanVitalsAsWritten | app/data_simulation_v2.py:494-503 | the named readings without None values, plus `bloodPressure` taken from the input or `{}` when absent |
| ScenarioSim.AnomalyAlertLosesBloodPressure | app/data_simulation_v2.py:579-584 | an anomaly's vitals reach the alert before the pressures are nested, so the alert's blood pressure is always `{}` |
| ScenarioSim.CleanVitals | app/data_simulation_v2.py:494-503 | as written, except that a missing nested blood pressure is built from the systolic and diastolic readings |
| ScenarioSim.AnomalyAlertKeepsBloodPressure | app/data_simulation_v2.py:494-503 | with the correction an anomaly alert carries the anomaly's systolic and diastolic values |
| ScenarioSim.PickedAnomalyReadings | app/data_simulation_v2.py:494-503 | from an anomaly's flat vitals `create_alert` copies exactly heart rate, O2, temperature and respiratory rate |
| ScenarioSim.CreateAlert | app/data_simulation_v2.py:476-517 | the alert `create_alert` builds from an anomaly's vitals (the call at line 584): unresolved, for the device and patient, typed by the level's map entry; it holds exactly the four copied readings and the `{}` blood-pressure default, no glucose and no separate pressures |
| ScenarioSim.CreateAlertCorrected | app/data_simulation_v2.py:494-503 | the corrected alert: the same record, but its blood pressure nests the anomaly's systolic and diastolic values |
| AnomalyRules.Lookup | app/routers/anomalies.py:180-181 | a key's threshold row is found when the table has one with that key, and none is found only when no row carries it |
| AnomalyRules.TablesWellFormed | app/routers/anomalies.py:161-176 | every vital and environment row keeps critical-low <= low <= high <= critical-high, and no row title holds a capital C |
| AnomalyRules.TablesDisjoint | app/routers/anomalies.py:161-176 | no key has a row in both the vital table and the environment table |
| AnomalyRules.VitalLadder | app/routers/anomalies.py:183-194 | a vital sign is flagged exactly when it leaves [low, high], a value on a threshold is not flagged, and the finding is critical exactly when the value leaves [critical_low, critical_high] |
| AnomalyRules.EnvironmentLadder | app/routers/anomalies.py:201-206 | an environment reading is flagged exactly when it leaves its normal range and critical exactly when it leaves its critical range |
| AnomalyRules.CriticalInTextIffCritical | app/routers/anomalies.py:106 | a violation string contains "Critical" exactly when its finding came from a critical branch |
| AnomalyRules.CheckVitalThresholds | app/routers/anomalies.py:153-208 | the violations and details equal the vital pass followed by the environment pass over the data items in order |
| AnomalyRules.CheckVitalPass | app/routers/anomalies.py:179-194 | the first loop's violations and details equal one step per data item over the vital table |
| AnomalyRules.CheckEnvironmentPass | app/routers/anomalies.py:197-206 | the second loop extends what the first found by one step per data item over the environment table |
| AnomalyRules.RunDetails | app/routers/anomalies.py:179-206 | one pass records a detail exactly for each flagged key and appends one violation per new detail |
| AnomalyRules.RunViolations | app/routers/anomalies.py:179-206 | one pass appends exactly the violation strings its items yield |
| AnomalyRules.PassesShareNoKey | app/routers/anomalies.py:179-206 | a key flagged by one pass is not looked up by the other, so each key yields at most one violation |
| AnomalyRules.ThresholdCheckKeys | app/routers/anomalies.py:179-208 | details has an entry exactly for each key whose reading is flagged (keys in neither table never are), with one violation per such key |
| AnomalyRules.ThresholdCheckCritical | app/routers/anomalies.py:179-206 | some violation contains "Critical" exactly when some reading leaves its critical range |
| AnomalyRules.SeverityRank | app/routers/anomalies.py:95-111 | the severity levels are ordered NORMAL < LOW < MEDIUM < HIGH < CRITICAL, CRITICAL alone on top |
| AnomalyRules.RuleSeverity | app/routers/anomalies.py:139-144 | with violations the rules alone give CRITICAL with 8.0 exactly when a violation contains "Critical", else MEDIUM with 4.0 |
| AnomalyRules.MergedSeverity | app/routers/anomalies.py:100-111 | merging violations never lowers the level or the score; a critical violation gives CRITICAL with a score of at least 8, NORMAL becomes MEDIUM with at least 4, and no violations change nothing |
| AnomalyRules.ModelSeverity | app/routers/anomalies.py:93-96 | a non-outlier prediction leaves NORMAL with score 0; an outlier is HIGH or MEDIUM with a non-negative score |
| AnomalyRules.MergeAtLeastRuleLevel | app/routers/anomalies.py:93-111 | whatever the model predicts, the merged level is at least the level the rules alone give |
| AnomalyRules.AnomalyResult.constructor | app/routers/anomalies.py:45-55 | the initial result is not an anomaly, NORMAL, with every score 0 and no anomaly types |
| AnomalyRules.AnomalyResult.RuleBasedDetectionOnly | app/routers/anomalies.py:128-151 | with violations the result becomes an anomaly whose types and details are the rules' and whose severity is the rules' own; without violations nothing changes |
| AnomalyRules.AnomalyResult.ApplyPrediction | app/routers/anomalies.py:88-96 | the score and its absolute value as confidence are recorded; an outlier appends "Statistical Outlier" and takes the model's severity, anything else keeps the severity and types |
| AnomalyRules.AnomalyResult.MergeRuleViolations | app/routers/anomalies.py:98-111 | violations mark the result an anomaly, are appended to its types, replace the rule details and merge into the severity; the other fields are kept |
| AnomalyRules.DetectAnomalyWithModel | app/routers/anomalies.py:38-126 | the rule details are recorded exactly when a rule fires; with a prediction the result combines the model's verdict and the merged rules and reports a functional model; without a model or after an error it is the rule-only result with the status or error recorded |
| AnomalyRules.AlertMessage | app/routers/anomalies.py:284-296 | no types give "Anomaly detected for device {id}"; one type gives "{sev} Alert: {t} detected for device " followed by the id; several give "{sev} Alert: Multiple anomalies detected for device {id}: " followed by the types joined by ", "; every message names the device and each type |
| AnomalyRules.SafeAnomalyTimestamp | app/routers/anomalies.py:256 | the log key has the timestamp's length, contains no colon or dot, and equals the key the simulator's dot-and-colon rewrite gives |
| AnomalyRules.SafeKeysKeepOtherCharacters | app/routers/anomalies.py:256 | every character other than a colon or a dot keeps its place in the log key |
| AnomalyRules.SaveAnomalyLog | app/routers/anomalies.py:249-279 | an alert is written exactly for an anomaly, unresolved, for the same device, timestamp and severity, with a message naming the device |
| AnomalyRules.UnresolvedMembers | app/routers/anomalies.py:445-447 | a device's alert is collected exactly when its resolved flag is missing or false |
| AnomalyRules.ActiveOfMembers | app/routers/anomalies.py:443-447 | an alert is collected exactly when some device holds it and it is not resolved |
| AnomalyRules.CollectActiveAlerts | app/routers/anomalies.py:441-447 | the two loops gather every device's unresolved alerts, device by device, in stored order |
| AnomalyRules.Rank | app/routers/anomalies.py:450-453 | ranks lie in 0..4, a missing level ranks as LOW, an unknown one 4, and rank 0 is exactly CRITICAL |
| AnomalyRules.SortAlerts | app/routers/anomalies.py:451-457 | the sorted list is a permutation of its input in the requested order |
| AnomalyRules.GetActiveAlertsAsWritten | app/routers/anomalies.py:432-459 | as written: a permutation of the unresolved alerts, sorted descending by (rank, timestamp) |
| AnomalyRules.AsWrittenOrder | app/routers/anomalies.py:450-457 | as written, rank never decreases down the list |
| AnomalyRules.AsWrittenListsCriticalLast | app/routers/anomalies.py:450-457 | as written, only CRITICAL alerts may follow a CRITICAL alert |
| AnomalyRules.CounterexampleBothActive | app/routers/anomalies.py:443-447 | an unresolved CRITICAL and an unresolved LOW alert of one device are both collected |
| AnomalyRules.AsWrittenCounterexample | app/routers/anomalies.py:450-457 | as written the LOW alert must precede the CRITICAL one; the intended order requires the reverse |
| AnomalyRules.GetActiveAlerts | app/routers/anomalies.py:432-459 | a permutation of the unresolved alerts, most severe first and newest first within a level |
| AnomalyRules.IntendedOrder | app/routers/anomalies.py:449-457 | in the intended order, rank never decreases down the list and, within a rank, timestamps never increase |
| Wards.FirstAvailableIsFirstMatch | app/routers/beds.py:229-235 | the bed found is listed, matches room, status "available" and the requested type, and no bed listed before it matches; nothing is found exactly when no listed bed matches |
| Wards.AvailableBedFound | app/routers/rooms.py:261-267 | over the stored beds, a found bed is stored and matching, and nothing is found exactly when no stored bed matches |
| Wards.OccupiedInMembers | app/routers/beds.py:206-209 | the room's occupied-bed list holds exactly the stored beds of that room whose status is "occupied" |
| Wards.OccupiedInKeepsOrder | app/routers/rooms.py:318-330 | the first entry of the occupied-bed list is the first occupied bed of the room in Firebase order |
| Wards.SetRoomStatus | app/routers/beds.py:199-218 | only the rooms table changes: beds, patients and devices are kept |
| Wards.RefreshRoom | app/routers/rooms.py:308-335 | only the rooms table changes: beds, patients and devices are kept |
| Wards.RoomStatusFollowsBeds | app/routers/beds.py:199-218 | an existing room is marked "occupied" exactly when one of its beds is occupied and "available" otherwise, with its other fields kept; a missing room and every other room are untouched |
| Wards.RefreshRoomNamesFirstOccupant | app/routers/rooms.py:308-335 | the recompute sets the same status as beds.py's and names the patient of the first occupied bed, or nobody when none is occupied |
| Wards.Discharge | app/routers/beds.py:131-161 | bed, patient and room keys and the devices are kept |
| Wards.DischargeFrees | app/routers/beds.py:131-161 | 404 exactly for a missing bed and 400 exactly when the bed does not hold the patient, both changing nothing; otherwise the bed is free, the patient is placed nowhere, other patients are kept and the bed's room is occupied exactly when one of its beds still is |
| Wards.DischargeSetsBed | app/routers/beds.py:145-148 | a successful discharge changes no bed but the one it frees |
| Wards.AssignToBed | app/routers/beds.py:79-122 | bed, patient and room keys and the devices are kept |
| Wards.AssignToBedRejects | app/routers/beds.py:86-103 | 404 for a missing bed, 400 for a bed that is not available, 404 for a missing patient, or the discharge's error for a previous bed that cannot be released; every failure leaves the tables unchanged, and success happens exactly when none applies |
| Wards.AssignToBedPlaces | app/routers/beds.py:105-119 | on success the bed is occupied by the patient, the patient is placed in the bed and its room, and an existing room is marked occupied |
| Wards.AssignToBedReleases | app/routers/beds.py:99-108 | on success the patient's previous different bed is freed and every other bed is kept |
| Wards.AssignToRoom | app/routers/rooms.py:272-306 | bed, patient and room keys and the devices are kept |
| Wards.AssignToRoomPlaces | app/routers/rooms.py:272-306 | 404 exactly for a missing patient and 400 exactly when the room has no available bed, both changing nothing; otherwise an available bed of the room holds the patient, the patient is placed in that bed and room, and an existing room names the patient and is occupied |
| Wards.AssignToRoomKeepsPreviousBed | app/routers/rooms.py:272-306 | assigning to a room does not release the bed the patient already had |
| Wards.UnassignPatient | app/routers/rooms.py:340-368 | bed, patient and room keys and the devices are kept |
| Wards.UnassignPatientFrees | app/routers/rooms.py:340-368 | a missing patient changes nothing; otherwise the recorded bed is freed, the patient is placed nowhere, the recorded room is occupied exactly when one of its beds still is, and every other room is kept |
| Wards.AssignDevice | app/routers/rooms.py:370-380 | 404 exactly for a missing device; otherwise only that device changes, to the room |
| Wards.UnassignDevice | app/routers/rooms.py:382-390 | only the devices table changes and its keys are kept |
| Wards.AssignDevices | app/routers/rooms.py:102-103 | assigning a list fails exactly when one of its devices is missing; on success every listed device is in the room and every other device is kept |
| Wards.UnassignDevices | app/routers/rooms.py:206-207 | every listed device loses its room and every other device is kept |
| Wards.CreateRoom | app/routers/rooms.py:79-105 | the beds and their order are kept |
| Wards.CreateRoomStores | app/routers/rooms.py:79-105 | 400 exactly for an existing room id, changing nothing; otherwise the room is stored even when a later assignment fails, and on success the requested patient lies in one of the room's beds, the room is occupied and every listed device is in the room |
| Wards.UpdateRoomRecord | app/routers/rooms.py:112-140 | the beds, their order and the devices are kept, and on success the room is stored |
| Wards.UpdateRoomRecordPatient | app/routers/rooms.py:115-140 | 404 exactly for a missing room, changing nothing; a kept patient leaves beds and patients alone with the new record stored under the old creation time; a replaced patient is placed nowhere and the new one is placed in the room |
| Wards.DetachAll | app/routers/rooms.py:147-148 | detaching keeps the device keys |
| Wards.AttachAll | app/routers/rooms.py:151-152 | attaching keeps the device keys |
| Wards.DeviceDiffMoves | app/routers/rooms.py:143-152 | devices only on the old list lose their room, devices only on the new list get the room, and devices on both or neither are untouched |
| Wards.DeleteRoom | app/routers/rooms.py:192-212 | the beds and their order are kept |
| Wards.DeleteRoomReleases | app/routers/rooms.py:192-212 | 404 exactly for a missing room, changing nothing; otherwise the room is gone, its patient is placed nowhere and each of its devices has no room |
| HospitalStore.Store.constructor | app/routers/beds.py:203-204 | the store starts with the given tables, every bed listed once |
| HospitalStore.Store.FindAvailableBed | app/routers/beds.py:223-235 | the loop returns the first bed in Firebase order that is in the room, available and of the requested type, or none |
| HospitalStore.Store.OccupiedBeds | app/routers/beds.py:206-209 | the loop gathers the room's occupied beds in Firebase order |
| HospitalStore.Store.UpdateRoomStatus | app/routers/beds.py:199-218 | the store afterwards is beds.py's status recompute of the store before |
| HospitalStore.Store.RefreshRoomOccupancy | app/routers/rooms.py:308-335 | the store afterwards is rooms.py's status-and-patient recompute of the store before |
| HospitalStore.Store.DischargePatientFromBed | app/routers/beds.py:131-164 | the new store and the answer are those of the discharge function on the old store |
| HospitalStore.Store.AssignPatientToBed | app/routers/beds.py:79-122 | the new store and the answer are those of the bed-assignment function on the old store |
| HospitalStore.Store.AssignPatientToRoom | app/routers/rooms.py:272-306 | the new store and the answer are those of the room-assignment function on the old store |
| HospitalStore.Store.UnassignPatientFromRoom | app/routers/rooms.py:340-368 | the new store is the unassignment function of the old store |
| HospitalStore.Store.AssignDeviceToRoom | app/routers/rooms.py:370-380 | the new store and the answer are those of the device-assignment function on the old store |
| HospitalStore.Store.UnassignDeviceFromRoom | app/routers/rooms.py:382-390 | the new store is the device-unassignment function of the old store |
| HospitalStore.Store.CreateRoom | app/routers/rooms.py:79-105 | the new store and the answer are those of the room-creation function on the old store, the devices assigned in list order |
| HospitalStore.Store.DetachDevices | app/routers/rooms.py:146-148 | every device of the set loses its room and nothing else changes |
| HospitalStore.Store.AttachDevices | app/routers/rooms.py:150-152 | success exactly when every device of the set is stored, and then each is in the room; on a missing device it answers 404 and every device is either unchanged or one of the set now in the room |
| HospitalStore.Store.UpdateRoom | app/routers/rooms.py:112-154 | the record and patient steps leave the store as the update function says; then devices only on the old list lose the room, devices only on the new list get it, and a missing new device gives 404 |
| HospitalStore.Store.DeleteRoom | app/routers/rooms.py:192-212 | the new store and the answer are those of the room-deletion function on the old store |
| Occupancy.Rate | app/routers/beds.py:279 | the occupancy rate lies in [0, 100], is 0 with nothing to count and 100 when everything is occupied |
| Occupancy.BedCounters.Bump | app/routers/beds.py:264-265 | a status named "total" raises the total by one; any other status leaves it alone |
| Occupancy.CountStatus | app/routers/beds.py:258-265 | no status is held by more beds than are listed |
| Occupancy.SumTotalsListed | app/routers/beds.py:268-277 | changing one listed group changes the sum of group totals by the change of that group's total |
| Occupancy.OpenGroup | app/routers/beds.py:268-269 | a group is made on first sight, its key listed last, without changing the sum of group totals |
| Occupancy.CountedEntry | app/routers/beds.py:270-271 | one bed raises its group's total by one, or by two as written when its status is "total" |
| Occupancy.CountIntoGroup | app/routers/beds.py:267-277 | one bed counted into its group raises the sum of group totals by one, or by two as written for the status "total" |
| Occupancy.BedTallyStep | app/routers/beds.py:258-265 | the tally of one more bed bumps the counter its status names |
| Occupancy.BedTallyCounts | app/routers/beds.py:248-265 | each status counter is the number of beds in that status, and the total is the number of beds plus, as written, those whose status is "total" |
| Occupancy.TallyBeds | app/routers/beds.py:258-277 | the loop fails as written exactly when a bed's status is "by_type" or "by_room"; otherwise the counters are the tally and the per-type and per-room totals each add up to the total |
| Occupancy.AnyUnaddableFinds | app/routers/beds.py:264-265 | the loop meets an uncountable status exactly when some bed has the status "by_type" or "by_room" |
| Occupancy.BedOccupancyStatsAsWritten | app/routers/beds.py:241-281 | as written: 500 exactly when a bed's status is "by_type" or "by_room"; otherwise the total counts beds whose status is "total" twice, the per-type and per-room totals add up to it and the rate lies in [0, 100] |
| Occupancy.BedStatusTotalCountsTwice | app/routers/beds.py:249-265 | as written a single bed whose status is "total" is reported as two beds |
| Occupancy.BedOccupancyStats | app/routers/beds.py:241-281 | the total is the number of beds, each status counter the number of beds in that status, the per-type and per-room totals each add up to the total, and the rate is occupied/total*100, or 0 with no beds |
| Occupancy.OrderCountsBeds | app/routers/beds.py:249 | `len(all_beds)` equals the number of beds the loop visits |
| Occupancy.RoomsWithStatus | app/routers/rooms.py:442-444 | the rooms of a status are among the rooms counted |
| Occupancy.TallyRooms | app/routers/rooms.py:440-444 | after the loop, in any order, each counter is the number of rooms in its status and "total" the number of rooms, plus as written those whose status is "total" |
| Occupancy.RoomTallyGrows | app/routers/rooms.py:441-444 | counting one more room raises "total" by one and then the counter its status names |
| Occupancy.RoomTallyBounded | app/routers/rooms.py:446 | no more rooms are occupied than are counted in all |
| Occupancy.RoomOccupancyStatsAsWritten | app/routers/rooms.py:425-448 | as written: the total counts rooms whose status is "total" twice and the rate lies in [0, 100] |
| Occupancy.RoomStatusTotalCountsTwice | app/routers/rooms.py:432-444 | as written a single room whose status is "total" is reported as two rooms |
| Occupancy.RoomOccupancyStats | app/routers/rooms.py:425-448 | the total is the number of rooms, each of the four counters the number of rooms in its status, any other status counts toward the total only, and the rate is occupied/total*100, or 0 with no rooms |

## Left out

- Firebase I/O: every `get`/`set`/`update`/`delete` is a read or write of the in-memory tables. The simulators' loaders and posters (`fetch_monitor_data`, `load_patient_profiles`, `post_vitals_to_db`, `save_alert_to_firebase`) are not modelled, and `save_anomaly_log` is modelled only as the paths and records it would write.
- Threads, the `running` flag, signal handling, the sleep-polling loop and the periodic profile reload of both simulators: these are scheduling plumbing.
- `math.cos`, `math.sin` and `round(...)`: the circadian and environmental swings are parameters, and outputs are not rounded.
- The Isolation Forest, the scaler and the feature preparation of `detect_anomaly_with_model`: their prediction and score are inputs.
- A model error: it is taken to be raised before any field of the result is written. The source may raise after the score fields are set and then run the rule-only path on that partly updated result.
- JWT and bcrypt in `app/auth_utils.py`, and the other routers (`auth`, `iot`, `alerts`, `patients`, `staff`, `predictions`, `simulation`, `realtime`): they are glue over foreign libraries or thin passthroughs.
- The read-only endpoints: `get_model_status`, `detect_anomaly`, `get_device_anomalies`, `get_all_anomalies`, `resolve_alert`, `retrain_models`, `get_anomaly_statistics`, the bed and room getters and `get_patient_bed`.
- Violation details and alert messages are text holding formatted floats: details are a datatype of their numbers, and float-to-text formatting is not modelled.
- Threshold titles: the display name `key.replace('_', ' ').title()` is written out per key in the threshold tables rather than computed.
- Sensor dictionaries hold numbers only. A non-numeric reading, which makes Python's comparisons raise, is not modelled.
- Exceptions after partial updates: a Firebase error mid-operation, which leaves earlier writes in place and answers 500, is not modelled. The model's failures are the source's `HTTPException`s, raised before anything is written except where the lemmas say otherwise.
- The lookup `get_alert_message_and_recommendations` of `app/data_simulation_v2.py` and the helpers `get_initial_vitals`, `get_last_medication_time` and `convert_*_to_cache_format` of `app/vitals_simulator.py`: they are text tables and format conversions. The time since the last medication is an input.
- Stored records are taken to carry every field the operations read. So the `.get` defaults for a missing status, type or room id in the statistics, and a missing `personalInfo`, are not modelled. Python's falsiness of an empty record is modelled as absence from the table.
- Updating a room that is missing: Firebase's `update` on a missing room path would create a partial record. The model leaves a missing room untouched.
- The unreachable `Bed {id} not found` branch of `assign_patient_to_room`: the bed found is always stored (`Wards.AssignToRoom`).
- The unreachable duplicate of `update_room` after its `return` (app/routers/rooms.py:160-189).
- The `room_type` parameter of `generate_environmental_data` in `app/data_simulation_v2.py`: the source never reads it, so the model has no such parameter.
- Common.Lower: only the ASCII capitals A-Z are lower-cased, whereas Python's `str.lower()` is Unicode; every name the model compares against is ASCII, so only a non-ASCII letter that lower-cases to an ASCII one (such as the Kelvin sign) would be judged differently.
- AnomalyRules.SortAlerts: Python's sort is stable, but stability is not stated; only the permutation and the order are.
- HospitalStore.Store.AttachDevices: when a device to add is missing, the devices added before the failure depend on the set's iteration order. The contract says only that each device is unchanged or now in the room.
- HospitalStore.Store.UpdateRoom: the same caveat about set order applies to its device loops.
- Occupancy.BedOccupancyStats: the per-status counters inside each `by_type` and `by_room` group are computed but not stated; only the group totals are.
- The anomaly-scenario lifecycle: `active_scenarios` in `app/data_simulation_v2.py` is never read or written, so there is nothing to model.

## Findings

| source | as written | input that shows it | evidently intended | confidence | as-written member | corrected member |
|---|---|---|---|---|---|---|
| app/data_simulation_v2.py:579-598 | the anomaly alert is created from the vitals before the pressures are nested into `bloodPressure`, so `create_alert` cleans vitals whose `bloodPressure` is missing and stores `{}` | any patient for whom an anomaly fires, e.g. a hypertensive crisis | the alert carries the anomaly's systolic and diastolic values | medium, not executed | ScenarioSim.CreateAlert | ScenarioSim.CreateAlertCorrected |
| app/routers/anomalies.py:450-457 | active alerts are sorted by (rank, timestamp) with `reverse=True`, and CRITICAL has rank 0, so CRITICAL alerts are listed last | one device with an unresolved CRITICAL alert and an unresolved LOW alert: the LOW one is listed first | most severe first, and newest first within a level | high, not executed | AnomalyRules.AsWrittenCounterexample | AnomalyRules.GetActiveAlerts |
| app/routers/beds.py:264-277 | the status counters share the `stats` dictionary with `total`, `by_type` and `by_room` | a bed whose status is "total" is counted as two beds; a bed whose status is "by_type" makes the handler answer 500 | count only the known statuses | low, not executed | Occupancy.BedStatusTotalCountsTwice | Occupancy.BedOccupancyStats |
| app/routers/rooms.py:441-444 | the status counters share the `stats` dictionary with `total` | a room whose status is "total" raises the total by two | count only the known statuses | low, not executed | Occupancy.RoomStatusTotalCountsTwice | Occupancy.RoomOccupancyStats |
