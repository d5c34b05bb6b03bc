/** Rule-based anomaly detection of app/routers/anomalies.py: the threshold ladder that
    turns sensor readings into violation strings and details, the severity the rules
    give on their own or merged into a model verdict, the alert message, the
    Firebase-safe timestamp and the list of active alerts. */
module AnomalyRules {
  import opened Common
  import VitalsSimulator

  // ---------------------------------------------------------------------------
  // Threshold tables (check_vital_thresholds)
  // ---------------------------------------------------------------------------

  datatype Thresholds = Thresholds(low: real, high: real, criticalLow: real, criticalHigh: real)

  /** A row of a threshold table: the sensor key, the title violation strings show
      for it (`key.replace('_', ' ').title()`, written out) and its limits. */
  datatype TableEntry = TableEntry(key: string, title: string, limits: Thresholds)

  const VitalTable: seq<TableEntry> := [
    TableEntry("heart_rate", "Heart Rate", Thresholds(60.0, 100.0, 40.0, 120.0)),
    TableEntry("systolic_bp", "Systolic Bp", Thresholds(90.0, 140.0, 70.0, 180.0)),
    TableEntry("diastolic_bp", "Diastolic Bp", Thresholds(60.0, 90.0, 40.0, 110.0)),
    TableEntry("temperature", "Temperature", Thresholds(36.1, 37.2, 35.0, 39.0)),
    TableEntry("oxygen_level", "Oxygen Level", Thresholds(95.0, 100.0, 90.0, 100.0)),
    TableEntry("respiratory_rate", "Respiratory Rate", Thresholds(12.0, 20.0, 8.0, 30.0)),
    TableEntry("glucose", "Glucose", Thresholds(70.0, 140.0, 50.0, 200.0))
  ]

  const EnvironmentTable: seq<TableEntry> := [
    TableEntry("room_temperature", "Room Temperature", Thresholds(20.0, 24.0, 15.0, 30.0)),
    TableEntry("humidity", "Humidity", Thresholds(40.0, 60.0, 20.0, 80.0)),
    TableEntry("air_quality", "Air Quality", Thresholds(0.0, 50.0, 0.0, 100.0))
  ]

  /** The two loops of `check_vital_thresholds`: vital signs first, then environment. */
  datatype Pass = Vital | Environment

  function Table(p: Pass): seq<TableEntry> {
    match p
    case Vital => VitalTable
    case Environment => EnvironmentTable
  }

  /** `thresholds.get(key)`: the row for a key, if the table has one. */
  function Lookup(table: seq<TableEntry>, key: string): (r: Option<TableEntry>)
    ensures r.Some? ==> r.value in table && r.value.key == key
    ensures r.None? ==> forall i :: 0 <= i < |table| ==> table[i].key != key
  {
    if table == [] then None
    else if table[0].key == key then Some(table[0])
    else Lookup(table[1..], key)
  }

  /** Every row keeps its limits in order, critical-low to critical-high, and no title
      holds a capital C. */
  predicate WellFormed(e: TableEntry) {
    e.limits.criticalLow <= e.limits.low <= e.limits.high <= e.limits.criticalHigh
    && 'C' !in e.title
  }

  lemma TablesWellFormed()
    ensures forall e :: e in VitalTable ==> WellFormed(e)
    ensures forall e :: e in EnvironmentTable ==> WellFormed(e)
  {
    forall i | 0 <= i < |VitalTable| ensures WellFormed(VitalTable[i]) {
      VitalRowWellFormed(i);
    }
    forall i | 0 <= i < |EnvironmentTable| ensures WellFormed(EnvironmentTable[i]) {
      EnvironmentRowWellFormed(i);
    }
  }

  /** A row of either table is well formed. */
  lemma RowWellFormed(p: Pass, e: TableEntry)
    requires e in Table(p)
    ensures WellFormed(e)
  {
    TablesWellFormed();
  }

  lemma VitalRowWellFormed(i: nat)
    requires i < |VitalTable|
    ensures WellFormed(VitalTable[i])
  {
    VitalRowOrdered(i);
    VitalRowTitle(i);
  }

  lemma VitalRowOrdered(i: nat)
    requires i < |VitalTable|
    ensures var t := VitalTable[i].limits; t.criticalLow <= t.low <= t.high <= t.criticalHigh
  {
    if i == 0 {} else if i == 1 {} else if i == 2 {} else if i == 3 {}
    else if i == 4 {} else if i == 5 {} else {}
  }

  lemma VitalRowTitle(i: nat)
    requires i < |VitalTable|
    ensures 'C' !in VitalTable[i].title
  {
    if i == 0 {} else if i == 1 {} else if i == 2 {} else if i == 3 {}
    else if i == 4 {} else if i == 5 {} else {}
  }

  lemma EnvironmentRowWellFormed(i: nat)
    requires i < |EnvironmentTable|
    ensures WellFormed(EnvironmentTable[i])
  {
    if i == 0 {} else if i == 1 {} else {}
  }

  /** The first two letters of every vital-sign key. */
  lemma VitalKeyStart(i: nat)
    requires i < |VitalTable|
    ensures var k := VitalTable[i].key;
      |k| >= 2 && (k[0], k[1]) in {('h', 'e'), ('s', 'y'), ('d', 'i'), ('t', 'e'), ('o', 'x'), ('r', 'e'), ('g', 'l')}
  {
    if i == 0 {} else if i == 1 {} else if i == 2 {} else if i == 3 {}
    else if i == 4 {} else if i == 5 {} else {}
  }

  /** The first two letters of every environment key. */
  lemma EnvironmentKeyStart(i: nat)
    requires i < |EnvironmentTable|
    ensures var k := EnvironmentTable[i].key;
      |k| >= 2 && (k[0], k[1]) in {('r', 'o'), ('h', 'u'), ('a', 'i')}
  {
    if i == 0 {} else if i == 1 {} else {}
  }

  /** No key is in both tables: no two keys start with the same two letters. */
  lemma TablesDisjoint(key: string)
    ensures !(Lookup(VitalTable, key).Some? && Lookup(EnvironmentTable, key).Some?)
  {
    var v, e := Lookup(VitalTable, key), Lookup(EnvironmentTable, key);
    if v.Some? && e.Some? {
      var i :| 0 <= i < |VitalTable| && VitalTable[i] == v.value;
      var j :| 0 <= j < |EnvironmentTable| && EnvironmentTable[j] == e.value;
      VitalKeyStart(i);
      EnvironmentKeyStart(j);
      assert false;
    }
  }

  /** The parts of the detail message recorded for a violating key. */
  datatype Detail =
    | BelowThreshold(value: real, threshold: real, critical: bool)
    | AboveThreshold(value: real, threshold: real, critical: bool)
    | OutsideRange(value: real, low: real, high: real, critical: bool)

  /** One violation: the string appended to `violations` and the detail stored for its key. */
  datatype Finding = Finding(text: string, detail: Detail)

  /** What one reading of a tabled key yields. Vital signs: critical low, critical high,
      low, high, first match wins, all strict. Environment: outside the critical range,
      else outside the normal range. */
  function Verdict(p: Pass, e: TableEntry, value: real): Option<Finding> {
    var t := e.limits;
    match p
    case Vital =>
      if value < t.criticalLow then Some(Finding("Critical Low " + e.title, BelowThreshold(value, t.criticalLow, true)))
      else if value > t.criticalHigh then Some(Finding("Critical High " + e.title, AboveThreshold(value, t.criticalHigh, true)))
      else if value < t.low then Some(Finding("Low " + e.title, BelowThreshold(value, t.low, false)))
      else if value > t.high then Some(Finding("High " + e.title, AboveThreshold(value, t.high, false)))
      else None
    case Environment =>
      if value < t.criticalLow || value > t.criticalHigh then
        Some(Finding("Critical Environment: " + e.title, OutsideRange(value, t.criticalLow, t.criticalHigh, true)))
      else if value < t.low || value > t.high then
        Some(Finding("Environment Alert: " + e.title, OutsideRange(value, t.low, t.high, false)))
      else None
  }

  /** The finding of one data item in one pass; keys outside the pass's table give none. */
  function PassFinding(p: Pass, key: string, value: real): Option<Finding> {
    match Lookup(Table(p), key)
    case None => None
    case Some(e) => Verdict(p, e, value)
  }

  /** The finding of one data item over both passes (the tables share no key). */
  function FindingOf(key: string, value: real): Option<Finding> {
    if PassFinding(Vital, key, value).Some? then PassFinding(Vital, key, value)
    else PassFinding(Environment, key, value)
  }

  /** A vital sign is flagged exactly when it leaves its normal range, a value on a
      threshold is not flagged, and the finding is critical exactly when the value leaves
      the critical range. */
  lemma VitalLadder(e: TableEntry, value: real)
    requires e in VitalTable
    ensures Verdict(Vital, e, value).None? <==> e.limits.low <= value <= e.limits.high
    ensures Verdict(Vital, e, value).Some? ==>
      (Verdict(Vital, e, value).value.detail.critical <==> value < e.limits.criticalLow || value > e.limits.criticalHigh)
  {
    TablesWellFormed();
  }

  /** An environment reading is flagged exactly when it leaves its normal range, and
      the flag is critical exactly when it leaves the critical range. */
  lemma EnvironmentLadder(e: TableEntry, value: real)
    requires e in EnvironmentTable
    ensures Verdict(Environment, e, value).None? <==> e.limits.low <= value <= e.limits.high
    ensures Verdict(Environment, e, value).Some? ==>
      (Verdict(Environment, e, value).value.detail.critical <==> value < e.limits.criticalLow || value > e.limits.criticalHigh)
  {
    TablesWellFormed();
  }

  /** `"Critical" in violation` holds of a violation string exactly when its finding
      is critical. */
  lemma CriticalInTextIffCritical(p: Pass, e: TableEntry, value: real)
    requires e in Table(p)
    requires Verdict(p, e, value).Some?
    ensures Contains(Verdict(p, e, value).value.text, "Critical") <==> Verdict(p, e, value).value.detail.critical
  {
    var f := Verdict(p, e, value).value;
    if f.detail.critical {
      CriticalTextOpens(p, e, value);
    } else {
      OtherTextLacksC(p, e, value);
      NotContainsWithoutFirstChar(f.text, "Critical");
    }
  }

  /** A critical finding's text opens with "Critical". */
  lemma CriticalTextOpens(p: Pass, e: TableEntry, value: real)
    requires Verdict(p, e, value).Some? && Verdict(p, e, value).value.detail.critical
    ensures OccursAt(Verdict(p, e, value).value.text, "Critical", 0)
  {
  }

  /** Any other finding's text holds no capital C. */
  lemma OtherTextLacksC(p: Pass, e: TableEntry, value: real)
    requires e in Table(p)
    requires Verdict(p, e, value).Some? && !Verdict(p, e, value).value.detail.critical
    ensures 'C' !in Verdict(p, e, value).value.text
  {
    RowWellFormed(p, e);
  }

  /** The violations and details `check_vital_thresholds` returns. */
  datatype CheckResult = CheckResult(violations: seq<string>, details: map<string, Detail>)

  /** One loop iteration: append the violation and record the detail, if any. */
  function Step(p: Pass, acc: CheckResult, key: string, value: real): CheckResult {
    match PassFinding(p, key, value)
    case None => acc
    case Some(f) => CheckResult(acc.violations + [f.text], acc.details[key := f.detail])
  }

  /** One loop over the data items, in order. */
  function Run(p: Pass, acc: CheckResult, items: seq<(string, real)>): CheckResult
    decreases |items|
  {
    if items == [] then acc
    else
      var last := items[|items| - 1];
      Step(p, Run(p, acc, items[..|items| - 1]), last.0, last.1)
  }

  /** Both loops over the data items: vital signs first, then environment. */
  function ThresholdCheck(data: seq<(string, real)>): CheckResult {
    Run(Environment, Run(Vital, CheckResult([], map[]), data), data)
  }

  /** `check_vital_thresholds`: `data` is the sensor dictionary as its items in order. */
  method CheckVitalThresholds(data: seq<(string, real)>) returns (violations: seq<string>, details: map<string, Detail>)
    ensures CheckResult(violations, details) == ThresholdCheck(data)
  {
    violations, details := CheckVitalPass(data);
    violations, details := CheckEnvironmentPass(data, violations, details);
  }

  /** The first loop of `check_vital_thresholds`, over the vital-sign table. */
  method CheckVitalPass(data: seq<(string, real)>) returns (violations: seq<string>, details: map<string, Detail>)
    ensures CheckResult(violations, details) == Run(Vital, CheckResult([], map[]), data)
  {
    violations, details := [], map[];
    for i := 0 to |data|
      invariant CheckResult(violations, details) == Run(Vital, CheckResult([], map[]), data[..i])
    {
      var (vital, value) := data[i];
      var row := Lookup(VitalTable, vital);
      if row.Some? {
        var t, title := row.value.limits, row.value.title;
        if value < t.criticalLow {
          violations := violations + ["Critical Low " + title];
          details := details[vital := BelowThreshold(value, t.criticalLow, true)];
        } else if value > t.criticalHigh {
          violations := violations + ["Critical High " + title];
          details := details[vital := AboveThreshold(value, t.criticalHigh, true)];
        } else if value < t.low {
          violations := violations + ["Low " + title];
          details := details[vital := BelowThreshold(value, t.low, false)];
        } else if value > t.high {
          violations := violations + ["High " + title];
          details := details[vital := AboveThreshold(value, t.high, false)];
        }
      }
      assert data[..i + 1][..i] == data[..i];
    }
    assert data[..|data|] == data;
  }

  /** The second loop of `check_vital_thresholds`, over the environment table, adding to
      what the first loop found. */
  method CheckEnvironmentPass(data: seq<(string, real)>, violations0: seq<string>, details0: map<string, Detail>)
    returns (violations: seq<string>, details: map<string, Detail>)
    ensures CheckResult(violations, details) == Run(Environment, CheckResult(violations0, details0), data)
  {
    violations, details := violations0, details0;
    for i := 0 to |data|
      invariant CheckResult(violations, details) == Run(Environment, CheckResult(violations0, details0), data[..i])
    {
      var (param, value) := data[i];
      var row := Lookup(EnvironmentTable, param);
      if row.Some? {
        var t, title := row.value.limits, row.value.title;
        if value < t.criticalLow || value > t.criticalHigh {
          violations := violations + ["Critical Environment: " + title];
          details := details[param := OutsideRange(value, t.criticalLow, t.criticalHigh, true)];
        } else if value < t.low || value > t.high {
          violations := violations + ["Environment Alert: " + title];
          details := details[param := OutsideRange(value, t.low, t.high, false)];
        }
      }
      assert data[..i + 1][..i] == data[..i];
    }
    assert data[..|data|] == data;
  }

  /** A dictionary's items name each key once. */
  predicate DistinctKeys(items: seq<(string, real)>) {
    forall i, j :: 0 <= i < j < |items| ==> items[i].0 != items[j].0
  }

  /** A key that one item of `items` carries and that yields a finding in pass `p`. */
  predicate FlaggedIn(p: Pass, items: seq<(string, real)>, key: string) {
    exists i :: 0 <= i < |items| && Flags(p, items[i], key)
  }

  /** The item carries the key and yields a finding for it in pass `p`. */
  predicate Flags(p: Pass, item: (string, real), key: string) {
    item.0 == key && PassFinding(p, key, item.1).Some?
  }

  /** A violation string that some item of `items` yields in pass `p`. */
  predicate YieldedIn(p: Pass, items: seq<(string, real)>, text: string) {
    exists i :: 0 <= i < |items| && Yields(p, items[i], text)
  }

  /** The item yields the violation string in pass `p`. */
  predicate Yields(p: Pass, item: (string, real), text: string) {
    PassFinding(p, item.0, item.1).Some? && PassFinding(p, item.0, item.1).value.text == text
  }

  /** Items with distinct keys: an item's key is not the key of any earlier item. */
  lemma LastKeyIsNew(items: seq<(string, real)>, p: Pass)
    requires DistinctKeys(items) && items != []
    ensures !FlaggedIn(p, items[..|items| - 1], items[|items| - 1].0)
  {
    var front := items[..|items| - 1];
    forall i | 0 <= i < |front| ensures front[i].0 != items[|items| - 1].0 {
      assert front[i] == items[i];
    }
  }

  /** A key is flagged in `items` when it is flagged in all but the last item, or it is
      the last item's key and that item yields a finding. */
  lemma FlaggedInSplit(p: Pass, items: seq<(string, real)>, k: string)
    requires items != []
    ensures FlaggedIn(p, items, k) <==> FlaggedIn(p, items[..|items| - 1], k) || Flags(p, items[|items| - 1], k)
  {
    var front := items[..|items| - 1];
    if FlaggedIn(p, items, k) {
      var i :| 0 <= i < |items| && Flags(p, items[i], k);
      if i < |front| {
        assert front[i] == items[i];
        assert Flags(p, front[i], k);
      }
    }
    if FlaggedIn(p, front, k) {
      var i :| 0 <= i < |front| && Flags(p, front[i], k);
      assert items[i] == front[i];
      assert Flags(p, items[i], k);
    }
  }

  /** A string is yielded by `items` when it is yielded by all but the last item, or
      the last item yields it. */
  lemma YieldedInSplit(p: Pass, items: seq<(string, real)>, t: string)
    requires items != []
    ensures YieldedIn(p, items, t) <==> YieldedIn(p, items[..|items| - 1], t) || Yields(p, items[|items| - 1], t)
  {
    var front := items[..|items| - 1];
    if YieldedIn(p, items, t) {
      var i :| 0 <= i < |items| && Yields(p, items[i], t);
      if i < |front| {
        assert front[i] == items[i];
        assert Yields(p, front[i], t);
      }
    }
    if YieldedIn(p, front, t) {
      var i :| 0 <= i < |front| && Yields(p, front[i], t);
      assert items[i] == front[i];
      assert Yields(p, items[i], t);
    }
  }

  /** One pass over items with distinct keys, none already in the details, records a
      detail exactly for each flagged key and appends one violation per new detail. */
  lemma {:induction false} RunDetails(p: Pass, acc: CheckResult, items: seq<(string, real)>)
    requires DistinctKeys(items)
    requires forall i :: 0 <= i < |items| && Lookup(Table(p), items[i].0).Some? ==> items[i].0 !in acc.details
    ensures forall k :: k in Run(p, acc, items).details <==> k in acc.details || FlaggedIn(p, items, k)
    ensures |Run(p, acc, items).violations| - |acc.violations| == |Run(p, acc, items).details| - |acc.details|
  {
    if items != [] {
      var front, last := items[..|items| - 1], items[|items| - 1];
      assert DistinctKeys(front);
      RunDetails(p, acc, front);
      LastKeyIsNew(items, p);
      forall k ensures FlaggedIn(p, items, k) <==> FlaggedIn(p, front, k) || Flags(p, last, k) {
        FlaggedInSplit(p, items, k);
      }
    }
  }

  /** One pass appends exactly the violation strings its items yield. */
  lemma {:induction false} RunViolations(p: Pass, acc: CheckResult, items: seq<(string, real)>)
    ensures forall t :: t in Run(p, acc, items).violations <==> t in acc.violations || YieldedIn(p, items, t)
  {
    if items != [] {
      RunViolations(p, acc, items[..|items| - 1]);
      forall t ensures YieldedIn(p, items, t) <==> YieldedIn(p, items[..|items| - 1], t) || Yields(p, items[|items| - 1], t) {
        YieldedInSplit(p, items, t);
      }
    }
  }

  /** `any("Critical" in violation for violation in violations)` */
  predicate HasCritical(violations: seq<string>) {
    exists i :: 0 <= i < |violations| && Contains(violations[i], "Critical")
  }

  /** Some item of `data` yields a finding, over both tables. */
  predicate Flagged(data: seq<(string, real)>, key: string) {
    exists i :: 0 <= i < |data| && data[i].0 == key && FindingOf(key, data[i].1).Some?
  }

  /** A key with a row in the vital table yields nothing in the environment pass, and
      the other way round. */
  lemma PassesShareNoKey(key: string, value: real)
    ensures PassFinding(Vital, key, value).Some? ==> Lookup(EnvironmentTable, key).None?
    ensures PassFinding(Environment, key, value).Some? ==> Lookup(VitalTable, key).None?
    ensures FindingOf(key, value).Some? <==> PassFinding(Vital, key, value).Some? || PassFinding(Environment, key, value).Some?
  {
    TablesDisjoint(key);
  }

  /** Over data with distinct keys, `details` has an entry exactly for each key whose
      reading is flagged, and there is exactly one violation per such key. */
  lemma {:induction false} ThresholdCheckKeys(data: seq<(string, real)>)
    requires DistinctKeys(data)
    ensures forall k :: k in ThresholdCheck(data).details <==> Flagged(data, k)
    ensures |ThresholdCheck(data).violations| == |ThresholdCheck(data).details|
  {
    var empty := CheckResult([], map[]);
    var afterVitals := Run(Vital, empty, data);
    RunDetails(Vital, empty, data);
    forall i | 0 <= i < |data| && Lookup(EnvironmentTable, data[i].0).Some?
      ensures data[i].0 !in afterVitals.details
    {
      if FlaggedIn(Vital, data, data[i].0) {
        var j :| 0 <= j < |data| && data[j].0 == data[i].0 && PassFinding(Vital, data[i].0, data[j].1).Some?;
        PassesShareNoKey(data[i].0, data[j].1);
      }
    }
    RunDetails(Environment, afterVitals, data);
    forall k ensures Flagged(data, k) <==> FlaggedIn(Vital, data, k) || FlaggedIn(Environment, data, k) {
      if Flagged(data, k) {
        var i :| 0 <= i < |data| && data[i].0 == k && FindingOf(k, data[i].1).Some?;
        PassesShareNoKey(k, data[i].1);
      }
      if FlaggedIn(Vital, data, k) {
        var i :| 0 <= i < |data| && data[i].0 == k && PassFinding(Vital, k, data[i].1).Some?;
        PassesShareNoKey(k, data[i].1);
      }
      if FlaggedIn(Environment, data, k) {
        var i :| 0 <= i < |data| && data[i].0 == k && PassFinding(Environment, k, data[i].1).Some?;
        PassesShareNoKey(k, data[i].1);
      }
    }
  }

  /** A violation string comes from exactly one item's finding. */
  lemma YieldedFromRow(p: Pass, data: seq<(string, real)>, t: string)
    requires YieldedIn(p, data, t)
    ensures exists i, e :: (0 <= i < |data| && e in Table(p) && Lookup(Table(p), data[i].0) == Some(e)
      && Verdict(p, e, data[i].1).Some? && Verdict(p, e, data[i].1).value.text == t)
  {
    var i :| 0 <= i < |data| && Yields(p, data[i], t);
    var e := Lookup(Table(p), data[i].0).value;
    assert Verdict(p, e, data[i].1).Some? && Verdict(p, e, data[i].1).value.text == t;
  }

  /** Some violation contains "Critical" exactly when some reading leaves its critical
      range: a critical vital sign or a critical environment value. */
  lemma {:induction false} ThresholdCheckCritical(data: seq<(string, real)>)
    ensures HasCritical(ThresholdCheck(data).violations) <==>
      exists i :: 0 <= i < |data| && FindingOf(data[i].0, data[i].1).Some? && FindingOf(data[i].0, data[i].1).value.detail.critical
  {
    var empty := CheckResult([], map[]);
    var afterVitals := Run(Vital, empty, data);
    var r := ThresholdCheck(data);
    RunViolations(Vital, empty, data);
    RunViolations(Environment, afterVitals, data);
    if HasCritical(r.violations) {
      var j :| 0 <= j < |r.violations| && Contains(r.violations[j], "Critical");
      var t := r.violations[j];
      var p := if YieldedIn(Vital, data, t) then Vital else Environment;
      YieldedFromRow(p, data, t);
      var i, e :| 0 <= i < |data| && e in Table(p) && Lookup(Table(p), data[i].0) == Some(e)
        && Verdict(p, e, data[i].1).Some? && Verdict(p, e, data[i].1).value.text == t;
      CriticalInTextIffCritical(p, e, data[i].1);
      PassesShareNoKey(data[i].0, data[i].1);
      assert FindingOf(data[i].0, data[i].1) == Verdict(p, e, data[i].1);
    }
    if exists i :: 0 <= i < |data| && FindingOf(data[i].0, data[i].1).Some? && FindingOf(data[i].0, data[i].1).value.detail.critical {
      var i :| 0 <= i < |data| && FindingOf(data[i].0, data[i].1).Some? && FindingOf(data[i].0, data[i].1).value.detail.critical;
      PassesShareNoKey(data[i].0, data[i].1);
      var p := if PassFinding(Vital, data[i].0, data[i].1).Some? then Vital else Environment;
      var e := Lookup(Table(p), data[i].0).value;
      var f := Verdict(p, e, data[i].1).value;
      assert Yields(p, data[i], f.text);
      CriticalInTextIffCritical(p, e, data[i].1);
      assert f.text in r.violations;
      var j :| 0 <= j < |r.violations| && r.violations[j] == f.text;
    }
  }

  // ---------------------------------------------------------------------------
  // Severity (rule_based_detection_only, detect_anomaly_with_model)
  // ---------------------------------------------------------------------------

  /** The order of the severity levels the detector writes, NORMAL lowest and CRITICAL
      highest; any other string ranks with NORMAL. */
  function SeverityRank(level: string): (rank: nat)
    ensures rank <= 4 && (rank == 4 <==> level == "CRITICAL")
  {
    if level == "CRITICAL" then 4
    else if level == "HIGH" then 3
    else if level == "MEDIUM" then 2
    else if level == "LOW" then 1
    else 0
  }

  function Max(a: real, b: real): real {
    if a >= b then a else b
  }

  /** The severity the rules give on their own, for a non-empty list of violations. */
  function RuleSeverity(violations: seq<string>): (r: (string, real))
    ensures r.0 == "CRITICAL" <==> HasCritical(violations)
    ensures r.0 in {"CRITICAL", "MEDIUM"} && (r.0 == "CRITICAL" ==> r.1 == 8.0) && (r.0 == "MEDIUM" ==> r.1 == 4.0)
  {
    if HasCritical(violations) then ("CRITICAL", 8.0) else ("MEDIUM", 4.0)
  }

  /** The severity after the rules are merged into a model verdict: a critical
      violation raises it to CRITICAL with a score of at least 8, other violations
      raise NORMAL to MEDIUM with a score of at least 4, and keep HIGH and MEDIUM. */
  function MergedSeverity(level: string, score: real, violations: seq<string>): (r: (string, real))
    ensures SeverityRank(r.0) >= SeverityRank(level) && r.1 >= score
    ensures violations == [] ==> r == (level, score)
    ensures violations != [] && HasCritical(violations) ==> r.0 == "CRITICAL" && r.1 >= 8.0
    ensures violations != [] && level in {"NORMAL", "MEDIUM", "HIGH"} ==> SeverityRank(r.0) >= 2
    ensures violations != [] && level == "NORMAL" ==> r.1 >= 4.0
  {
    if violations == [] then (level, score)
    else if HasCritical(violations) then ("CRITICAL", Max(score, 8.0))
    else if level == "NORMAL" then ("MEDIUM", Max(score, 4.0))
    else (level, score)
  }

  /** What the Isolation Forest step produced: nothing (no model file), an exception
      raised before any field was written, or a prediction and a decision score. */
  datatype ModelOutcome = NotLoaded | Failed(error: string) | Predicted(prediction: int, score: real)

  /** The severity the model alone gives: an outlier (prediction -1) is HIGH below a
      score of -0.5 and MEDIUM otherwise, scored ten times the absolute score. */
  function ModelSeverity(prediction: int, score: real): (r: (string, real))
    ensures prediction != -1 ==> r == ("NORMAL", 0.0)
    ensures prediction == -1 ==> r.0 in {"HIGH", "MEDIUM"} && r.1 >= 0.0
  {
    if prediction == -1 then (if score < -0.5 then "HIGH" else "MEDIUM", VitalsSimulator.AbsReal(score) * 10.0)
    else ("NORMAL", 0.0)
  }

  /** Whatever the model says, merging in the same violations leaves the level at least
      as high as the rules alone would set it. */
  lemma MergeAtLeastRuleLevel(prediction: int, score: real, violations: seq<string>)
    requires violations != []
    ensures var m := ModelSeverity(prediction, score);
      SeverityRank(MergedSeverity(m.0, m.1, violations).0) >= SeverityRank(RuleSeverity(violations).0)
  {
  }

  /** The `result` dictionary of `detect_anomaly_with_model`, updated in place. */
  class AnomalyResult {
    var deviceId: string
    var timestamp: string
    var isAnomaly: bool
    var anomalyScore: real
    var severityLevel: string
    var severityScore: real
    var anomalyType: seq<string>
    /** `details["rule_violations"]`, `details["model_status"]`, `details["model_error"]` */
    var ruleViolations: Option<map<string, Detail>>
    var modelStatus: Option<string>
    var modelError: Option<string>
    var confidence: real

    /** The initial result: no anomaly, NORMAL, every score 0. */
    constructor (deviceId: string, timestamp: string)
      ensures this.deviceId == deviceId && this.timestamp == timestamp
      ensures !isAnomaly && anomalyScore == 0.0 && severityLevel == "NORMAL" && severityScore == 0.0
      ensures anomalyType == [] && ruleViolations == None && modelStatus == None && modelError == None
      ensures confidence == 0.0
    {
      this.deviceId := deviceId;
      this.timestamp := timestamp;
      isAnomaly := false;
      anomalyScore := 0.0;
      severityLevel := "NORMAL";
      severityScore := 0.0;
      anomalyType := [];
      ruleViolations := None;
      modelStatus := None;
      modelError := None;
      confidence := 0.0;
    }

    /** `rule_based_detection_only`: with violations, the result becomes an anomaly whose
        types are the violations and whose severity is the rules' own; without, nothing
        changes. */
    method RuleBasedDetectionOnly(data: seq<(string, real)>)
      modifies this
      ensures var c := ThresholdCheck(data);
        if c.violations == [] then
          isAnomaly == old(isAnomaly) && anomalyType == old(anomalyType) && ruleViolations == old(ruleViolations)
          && severityLevel == old(severityLevel) && severityScore == old(severityScore)
        else
          isAnomaly && anomalyType == c.violations && ruleViolations == Some(c.details)
          && (severityLevel, severityScore) == RuleSeverity(c.violations)
      ensures deviceId == old(deviceId) && timestamp == old(timestamp) && anomalyScore == old(anomalyScore)
      ensures modelStatus == old(modelStatus) && modelError == old(modelError) && confidence == old(confidence)
    {
      var violations, details := CheckVitalThresholds(data);
      if violations != [] {
        isAnomaly := true;
        anomalyType := violations;
        ruleViolations := Some(details);
        if HasCritical(violations) {
          severityLevel := "CRITICAL";
          severityScore := 8.0;
        } else {
          severityLevel := "MEDIUM";
          severityScore := 4.0;
        }
      }
    }

    /** The model step of the model path: the score and confidence are recorded and an
        outlier becomes a "Statistical Outlier" anomaly with the model's severity. */
    method ApplyPrediction(prediction: int, score: real)
      modifies this
      ensures anomalyScore == score && confidence == VitalsSimulator.AbsReal(score) && isAnomaly == (prediction == -1)
      ensures prediction == -1 ==> (
        && anomalyType == old(anomalyType) + ["Statistical Outlier"]
        && (severityLevel, severityScore) == ModelSeverity(prediction, score))
      ensures prediction != -1 ==> (
        && anomalyType == old(anomalyType)
        && severityLevel == old(severityLevel) && severityScore == old(severityScore))
      ensures deviceId == old(deviceId) && timestamp == old(timestamp) && ruleViolations == old(ruleViolations)
      ensures modelStatus == old(modelStatus) && modelError == old(modelError)
    {
      anomalyScore := score;
      isAnomaly := prediction == -1;
      confidence := VitalsSimulator.AbsReal(score);
      if isAnomaly {
        anomalyType := anomalyType + ["Statistical Outlier"];
        severityLevel := if score < -0.5 then "HIGH" else "MEDIUM";
        severityScore := VitalsSimulator.AbsReal(score) * 10.0;
      }
    }

    /** The rule step of the model path: violations make the result an anomaly, are
        appended to its types and merged into its severity. */
    method MergeRuleViolations(data: seq<(string, real)>)
      modifies this
      ensures var c := ThresholdCheck(data);
        && isAnomaly == (old(isAnomaly) || c.violations != [])
        && anomalyType == old(anomalyType) + c.violations
        && ruleViolations == (if c.violations == [] then old(ruleViolations) else Some(c.details))
        && (severityLevel, severityScore) == MergedSeverity(old(severityLevel), old(severityScore), c.violations)
      ensures deviceId == old(deviceId) && timestamp == old(timestamp) && anomalyScore == old(anomalyScore)
      ensures modelStatus == old(modelStatus) && modelError == old(modelError) && confidence == old(confidence)
    {
      var violations, details := CheckVitalThresholds(data);
      if violations != [] {
        isAnomaly := true;
        anomalyType := anomalyType + violations;
        ruleViolations := Some(details);
        if HasCritical(violations) {
          severityLevel := "CRITICAL";
          severityScore := Max(severityScore, 8.0);
        } else if severityLevel == "NORMAL" {
          severityLevel := "MEDIUM";
          severityScore := Max(severityScore, 4.0);
        }
      }
    }
  }

  /** `detect_anomaly_with_model`, with the model's output passed in. */
  method DetectAnomalyWithModel(data: seq<(string, real)>, deviceId: string, timestamp: string, model: ModelOutcome)
    returns (result: AnomalyResult)
    ensures fresh(result) && result.deviceId == deviceId && result.timestamp == timestamp
    ensures var c := ThresholdCheck(data);
      result.ruleViolations == (if c.violations == [] then None else Some(c.details))
    ensures var c := ThresholdCheck(data);
      match model
      case Predicted(prediction, score) =>
        && result.isAnomaly == (prediction == -1 || c.violations != [])
        && result.anomalyScore == score && result.confidence == VitalsSimulator.AbsReal(score)
        && result.anomalyType == (if prediction == -1 then ["Statistical Outlier"] else []) + c.violations
        && (result.severityLevel, result.severityScore)
          == MergedSeverity(ModelSeverity(prediction, score).0, ModelSeverity(prediction, score).1, c.violations)
        && result.modelStatus == Some("Model loaded and functional") && result.modelError == None
      case _ =>
        && result.isAnomaly == (c.violations != []) && result.anomalyType == c.violations
        && result.anomalyScore == 0.0 && result.confidence == 0.0
        && (result.severityLevel, result.severityScore) == (if c.violations == [] then ("NORMAL", 0.0) else RuleSeverity(c.violations))
        && result.modelStatus == (if model.NotLoaded? then Some("Model not available") else None)
        && result.modelError == (if model.Failed? then Some(model.error) else None)
  {
    result := new AnomalyResult(deviceId, timestamp);
    match model
    case NotLoaded =>
      result.modelStatus := Some("Model not available");
      result.RuleBasedDetectionOnly(data);
    case Failed(error) =>
      result.modelError := Some(error);
      result.RuleBasedDetectionOnly(data);
    case Predicted(prediction, score) =>
      result.ApplyPrediction(prediction, score);
      result.MergeRuleViolations(data);
      result.modelStatus := Some("Model loaded and functional");
  }

  // ---------------------------------------------------------------------------
  // Alert message and log keys (generate_alert_message, save_anomaly_log)
  // ---------------------------------------------------------------------------

  /** A string occurs in itself framed by any prefix and suffix. */
  lemma ContainsFramed(pre: string, sub: string, post: string)
    ensures Contains(pre + sub + post, sub)
  {
    var s := pre + sub + post;
    assert s[|pre|..|pre| + |sub|] == sub;
    assert OccursAt(s, sub, |pre|);
  }

  /** Anything a string holds, the string framed by a prefix and suffix holds too. */
  lemma ContainsWidens(pre: string, s: string, post: string, sub: string)
    requires Contains(s, sub)
    ensures Contains(pre + s + post, sub)
  {
    var i :| 0 <= i <= |s| - |sub| && OccursAt(s, sub, i);
    var t := pre + s + post;
    assert t[|pre| + i..|pre| + i + |sub|] == s[i..i + |sub|];
    assert OccursAt(t, sub, |pre| + i);
  }

  /** Every part of a joined list occurs in the joined text behind any prefix. */
  lemma PrefixedJoinContainsEach(prefix: string, parts: seq<string>, sep: string)
    ensures forall k :: 0 <= k < |parts| ==> Contains(prefix + Join(parts, sep), parts[k])
  {
    forall k | 0 <= k < |parts|
      ensures Contains(prefix + Join(parts, sep), parts[k])
    {
      JoinContainsEachPart(parts, sep, k);
      ContainsWidens(prefix, Join(parts, sep), "", parts[k]);
      assert prefix + Join(parts, sep) + "" == prefix + Join(parts, sep);
    }
  }

  /** `generate_alert_message`: a bare notice without anomaly types, the single type
      named, or every type listed after "Multiple anomalies". In every case the message
      names the device and each type, and with any type it opens with the severity. */
  function AlertMessage(deviceId: string, severity: string, types: seq<string>): (m: string)
    ensures types == [] ==> m == "Anomaly detected for device " + deviceId
    ensures |types| == 1 ==>
      var lead := severity + " Alert: " + types[0] + " detected for device ";
      OccursAt(m, lead, 0) && m[|lead|..] == deviceId
    ensures |types| > 1 ==>
      var lead := severity + " Alert: " + "Multiple anomalies detected for device " + deviceId + ": ";
      OccursAt(m, lead, 0) && m[|lead|..] == Join(types, ", ")
    ensures types != [] ==> OccursAt(m, severity + " Alert: ", 0)
    ensures Contains(m, deviceId)
    ensures forall k :: 0 <= k < |types| ==> Contains(m, types[k])
  {
    if types == [] then
      ContainsFramed("Anomaly detected for device ", deviceId, "");
      assert "Anomaly detected for device " + deviceId + "" == "Anomaly detected for device " + deviceId;
      "Anomaly detected for device " + deviceId
    else if |types| == 1 then
      SingleMessage(severity + " Alert: ", types[0], " detected for device ", deviceId);
      severity + " Alert: " + types[0] + " detected for device " + deviceId
    else
      var lead := severity + " Alert: " + "Multiple anomalies detected for device " + deviceId + ": ";
      MultipleMessage(severity + " Alert: ", "Multiple anomalies detected for device ", deviceId, ": ", Join(types, ", "));
      PrefixedJoinContainsEach(lead, types, ", ");
      severity + " Alert: " + "Multiple anomalies detected for device " + deviceId + ": " + Join(types, ", ")
  }

  /** A text that opens with `lead` holds `lead` at 0 and ends with what follows it. */
  lemma OpensWith(lead: string, rest: string)
    ensures OccursAt(lead + rest, lead, 0) && (lead + rest)[|lead|..] == rest
  {
    assert (lead + rest)[..|lead|] == lead;
  }

  /** The one-type message `a + t + c + d`: its lead, the device `d` after it, and the
      type `t` and the severity lead `a` inside it. */
  lemma SingleMessage(a: string, t: string, c: string, d: string)
    ensures var m := a + t + c + d;
      && OccursAt(m, a + t + c, 0) && m[|a + t + c|..] == d
      && OccursAt(m, a, 0) && Contains(m, d) && Contains(m, t)
  {
    var m := a + t + c + d;
    OpensWith(a + t + c, d);
    OpensWith(a, t + c + d);
    assert m == a + (t + c + d);
    ContainsFramed(a + t + c, d, "");
    assert m == a + t + c + d + "";
    ContainsFramed(a, t, c + d);
    assert m == a + t + (c + d);
  }

  /** The several-type message `a + b + dev + sep + joined`: its lead, the joined types
      after it, and the device and the severity lead `a` inside it. */
  lemma MultipleMessage(a: string, b: string, dev: string, sep: string, joined: string)
    ensures var m := a + b + dev + sep + joined;
      && OccursAt(m, a + b + dev + sep, 0) && m[|a + b + dev + sep|..] == joined
      && OccursAt(m, a, 0) && Contains(m, dev)
  {
    var m := a + b + dev + sep + joined;
    OpensWith(a + b + dev + sep, joined);
    OpensWith(a, b + dev + sep + joined);
    assert m == a + (b + dev + sep + joined);
    ContainsFramed(a + b, dev, sep + joined);
    assert m == a + b + dev + (sep + joined);
  }

  /** `s.replace(from, to)` for single characters. */
  function ReplaceChar(s: string, from: char, to: char): (r: string)
    ensures |r| == |s|
    ensures forall i :: 0 <= i < |s| ==> r[i] == (if s[i] == from then to else s[i])
  {
    if s == [] then [] else [if s[0] == from then to else s[0]] + ReplaceChar(s[1..], from, to)
  }

  /** The key `save_anomaly_log` stores a result under: colons, then dots, become dashes.
      It agrees with the key the simulator derives from the same timestamp. */
  function SafeAnomalyTimestamp(timestamp: string): (r: string)
    ensures |r| == |timestamp| && ':' !in r && '.' !in r
    ensures r == VitalsSimulator.ReplaceDotsAndColons(timestamp)
  {
    var r := ReplaceChar(ReplaceChar(timestamp, ':', '-'), '.', '-');
    assert forall i :: 0 <= i < |r| ==> r[i] != ':' && r[i] != '.';
    r
  }

  /** An alert as it is read back from `iotData/<device>/alerts`: every field may be
      missing. */
  datatype StoredAlert = StoredAlert(
    deviceId: string,
    severityLevel: Option<string>,
    timestamp: Option<string>,
    message: Option<string>,
    resolved: Option<bool>)

  /** What `save_anomaly_log` writes: the result under `anomalies/<device>/<key>` and,
      for an anomaly, an unresolved alert under `iotData/<device>/alerts/<key>`. */
  datatype LogWrites = LogWrites(logPath: string, alert: Option<(string, StoredAlert)>)

  function SaveAnomalyLog(deviceId: string, timestamp: string, isAnomaly: bool, severity: string, types: seq<string>)
    : (w: LogWrites)
    ensures w.alert.Some? <==> isAnomaly
    ensures w.alert.Some? ==> (
      && IsActive(w.alert.value.1) && w.alert.value.1.deviceId == deviceId
      && w.alert.value.1.timestamp == Some(timestamp) && w.alert.value.1.severityLevel == Some(severity)
      && w.alert.value.1.message.Some? && Contains(w.alert.value.1.message.value, deviceId))
  {
    var key := SafeAnomalyTimestamp(timestamp);
    LogWrites("anomalies/" + deviceId + "/" + key,
      if isAnomaly then
        Some(("iotData/" + deviceId + "/alerts/" + key,
              StoredAlert(deviceId, Some(severity), Some(timestamp), Some(AlertMessage(deviceId, severity, types)), Some(false))))
      else None)
  }

  /** Every character other than a colon or a dot keeps its place in the log key. */
  lemma SafeKeysKeepOtherCharacters(timestamp: string, i: nat)
    requires i < |timestamp| && timestamp[i] != ':' && timestamp[i] != '.'
    ensures SafeAnomalyTimestamp(timestamp)[i] == timestamp[i]
  {
  }

  // ---------------------------------------------------------------------------
  // Active alerts (get_active_alerts)
  // ---------------------------------------------------------------------------

  /** `not alert.get("resolved", False)` */
  predicate IsActive(a: StoredAlert) {
    a.resolved != Some(true)
  }

  /** The unresolved alerts of one device, in stored order. */
  function Unresolved(alerts: seq<StoredAlert>): seq<StoredAlert> {
    if alerts == [] then []
    else Unresolved(alerts[..|alerts| - 1]) + (if IsActive(alerts[|alerts| - 1]) then [alerts[|alerts| - 1]] else [])
  }

  /** A device's alert is listed exactly when it is not resolved. */
  lemma {:induction false} UnresolvedMembers(alerts: seq<StoredAlert>, a: StoredAlert)
    ensures a in Unresolved(alerts) <==> a in alerts && IsActive(a)
  {
    if alerts != [] {
      var init := alerts[..|alerts| - 1];
      UnresolvedMembers(init, a);
      assert alerts == init + [alerts[|alerts| - 1]];
    }
  }

  /** The unresolved alerts of every device, device by device. */
  function ActiveOf(devices: seq<seq<StoredAlert>>): seq<StoredAlert> {
    if devices == [] then [] else ActiveOf(devices[..|devices| - 1]) + Unresolved(devices[|devices| - 1])
  }

  /** An alert is listed exactly when some device holds it and it is not resolved. */
  lemma {:induction false} ActiveOfMembers(devices: seq<seq<StoredAlert>>, a: StoredAlert)
    ensures a in ActiveOf(devices) <==> IsActive(a) && exists d :: 0 <= d < |devices| && a in devices[d]
  {
    if devices != [] {
      var init := devices[..|devices| - 1];
      ActiveOfMembers(init, a);
      UnresolvedMembers(devices[|devices| - 1], a);
      if a in ActiveOf(devices) && a !in Unresolved(devices[|devices| - 1]) {
        var d :| 0 <= d < |init| && a in init[d];
        assert a in devices[d];
      }
      if IsActive(a) && (exists d :: 0 <= d < |devices| && a in devices[d]) {
        var d :| 0 <= d < |devices| && a in devices[d];
        if d < |init| {
          assert a in init[d];
        }
      }
    }
  }

  /** The two loops of `get_active_alerts` that gather the unresolved alerts. */
  method CollectActiveAlerts(devices: seq<seq<StoredAlert>>) returns (active: seq<StoredAlert>)
    ensures active == ActiveOf(devices)
  {
    active := [];
    for i := 0 to |devices|
      invariant active == ActiveOf(devices[..i])
    {
      var alerts := devices[i];
      for j := 0 to |alerts|
        invariant active == ActiveOf(devices[..i]) + Unresolved(alerts[..j])
      {
        assert alerts[..j + 1][..j] == alerts[..j];
        if IsActive(alerts[j]) {
          active := active + [alerts[j]];
        }
      }
      assert alerts[..|alerts|] == alerts;
      assert devices[..i + 1][..i] == devices[..i];
    }
    assert devices[..|devices|] == devices;
  }

  /** `severity_order.get(x.get("severity_level", "LOW"), 4)`: a missing level counts as
      LOW, a level outside the table (NORMAL among them) after all of them. */
  function Rank(a: StoredAlert): (r: nat)
    ensures r <= 4
    ensures r == 0 <==> a.severityLevel == Some("CRITICAL")
  {
    match a.severityLevel
    case None => 3
    case Some(level) =>
      if level == "CRITICAL" then 0
      else if level == "HIGH" then 1
      else if level == "MEDIUM" then 2
      else if level == "LOW" then 3
      else 4
  }

  /** `x.get("timestamp", "")` */
  function Stamp(a: StoredAlert): string {
    if a.timestamp.Some? then a.timestamp.value else ""
  }

  /** Python's ordering of strings: `a <= b`. */
  predicate StrLe(a: string, b: string) {
    if a == [] then true
    else if b == [] then false
    else if a[0] != b[0] then a[0] < b[0]
    else StrLe(a[1..], b[1..])
  }

  lemma {:induction false} StrLeTotal(a: string, b: string)
    ensures StrLe(a, b) || StrLe(b, a)
  {
    if a != [] && b != [] && a[0] == b[0] {
      StrLeTotal(a[1..], b[1..]);
    }
  }

  lemma {:induction false} StrLeTrans(a: string, b: string, c: string)
    requires StrLe(a, b) && StrLe(b, c)
    ensures StrLe(a, c)
  {
    if a != [] && b != [] && c != [] && a[0] == b[0] && b[0] == c[0] {
      StrLeTrans(a[1..], b[1..], c[1..]);
    }
  }

  /** `a` may be listed before `b`. As written (`criticalFirst` false) the key
      (rank, timestamp) is sorted in reverse, so higher ranks (the milder levels) come
      first; the intended order (`criticalFirst` true) lists lower ranks first and,
      within a rank, newer timestamps first. */
  predicate Precedes(a: StoredAlert, b: StoredAlert, criticalFirst: bool) {
    if criticalFirst then Rank(a) < Rank(b) || (Rank(a) == Rank(b) && StrLe(Stamp(b), Stamp(a)))
    else Rank(a) > Rank(b) || (Rank(a) == Rank(b) && StrLe(Stamp(b), Stamp(a)))
  }

  lemma PrecedesTotal(a: StoredAlert, b: StoredAlert, criticalFirst: bool)
    ensures Precedes(a, b, criticalFirst) || Precedes(b, a, criticalFirst)
  {
    StrLeTotal(Stamp(a), Stamp(b));
  }

  lemma PrecedesTrans(a: StoredAlert, b: StoredAlert, c: StoredAlert, criticalFirst: bool)
    requires Precedes(a, b, criticalFirst) && Precedes(b, c, criticalFirst)
    ensures Precedes(a, c, criticalFirst)
  {
    if Rank(a) == Rank(b) == Rank(c) {
      StrLeTrans(Stamp(c), Stamp(b), Stamp(a));
    }
  }

  predicate Sorted(s: seq<StoredAlert>, criticalFirst: bool) {
    forall i, j :: 0 <= i < j < |s| ==> Precedes(s[i], s[j], criticalFirst)
  }

  /** Inserts `x` before the first element it may precede. */
  function Insert(x: StoredAlert, s: seq<StoredAlert>, criticalFirst: bool): seq<StoredAlert> {
    if s == [] || Precedes(x, s[0], criticalFirst) then [x] + s
    else [s[0]] + Insert(x, s[1..], criticalFirst)
  }

  lemma {:induction false} InsertPermutes(x: StoredAlert, s: seq<StoredAlert>, criticalFirst: bool)
    ensures multiset(Insert(x, s, criticalFirst)) == multiset(s) + multiset{x}
  {
    if s != [] && !Precedes(x, s[0], criticalFirst) {
      InsertPermutes(x, s[1..], criticalFirst);
      assert s == [s[0]] + s[1..];
    }
  }

  /** Whatever `s` precedes, it precedes with `x` inserted, as long as it precedes `x`. */
  lemma PrecedesAllInserted(y: StoredAlert, x: StoredAlert, t: seq<StoredAlert>, r: seq<StoredAlert>, criticalFirst: bool)
    requires multiset(r) == multiset(t) + multiset{x}
    requires Precedes(y, x, criticalFirst)
    requires forall k :: 0 <= k < |t| ==> Precedes(y, t[k], criticalFirst)
    ensures forall j :: 0 <= j < |r| ==> Precedes(y, r[j], criticalFirst)
  {
    forall j | 0 <= j < |r|
      ensures Precedes(y, r[j], criticalFirst)
    {
      assert r[j] in multiset(r);
      if r[j] != x {
        assert r[j] in multiset(t);
        var k :| 0 <= k < |t| && t[k] == r[j];
      }
    }
  }

  lemma {:induction false} InsertKeepsOrder(x: StoredAlert, s: seq<StoredAlert>, criticalFirst: bool)
    requires Sorted(s, criticalFirst)
    ensures Sorted(Insert(x, s, criticalFirst), criticalFirst)
  {
    var r := Insert(x, s, criticalFirst);
    if s == [] {
    } else if Precedes(x, s[0], criticalFirst) {
      forall i, j | 0 <= i < j < |r|
        ensures Precedes(r[i], r[j], criticalFirst)
      {
        if i == 0 && j > 1 {
          PrecedesTrans(x, s[0], s[j - 1], criticalFirst);
        } else if i > 0 {
          assert Precedes(s[i - 1], s[j - 1], criticalFirst);
        }
      }
    } else {
      var t := Insert(x, s[1..], criticalFirst);
      InsertKeepsOrder(x, s[1..], criticalFirst);
      InsertPermutes(x, s[1..], criticalFirst);
      PrecedesTotal(x, s[0], criticalFirst);
      forall k | 0 <= k < |s[1..]|
        ensures Precedes(s[0], s[1..][k], criticalFirst)
      {
        assert Precedes(s[0], s[k + 1], criticalFirst);
      }
      PrecedesAllInserted(s[0], x, s[1..], t, criticalFirst);
      assert r == [s[0]] + t;
      forall i, j | 0 <= i < j < |r|
        ensures Precedes(r[i], r[j], criticalFirst)
      {
        if i == 0 {
          assert Precedes(s[0], t[j - 1], criticalFirst);
        } else {
          assert Precedes(t[i - 1], t[j - 1], criticalFirst);
        }
      }
    }
  }

  /** `list.sort(key=..., reverse=True)` as an insertion sort; the result is a
      permutation of the input in the requested order. */
  function SortAlerts(s: seq<StoredAlert>, criticalFirst: bool): (r: seq<StoredAlert>)
    ensures multiset(r) == multiset(s)
    ensures Sorted(r, criticalFirst)
  {
    if s == [] then []
    else
      var rest := SortAlerts(s[1..], criticalFirst);
      InsertKeepsOrder(s[0], rest, criticalFirst);
      InsertPermutes(s[0], rest, criticalFirst);
      assert s == [s[0]] + s[1..];
      Insert(s[0], rest, criticalFirst)
  }

  /** `get_active_alerts` as written: every unresolved alert, in reverse order of
      (rank, timestamp). */
  method GetActiveAlertsAsWritten(devices: seq<seq<StoredAlert>>) returns (alerts: seq<StoredAlert>)
    ensures multiset(alerts) == multiset(ActiveOf(devices))
    ensures Sorted(alerts, false)
  {
    var active := CollectActiveAlerts(devices);
    alerts := SortAlerts(active, false);
  }

  /** `get_active_alerts` with the intended order: every unresolved alert, most severe
      first and, within a level, newest first. */
  method GetActiveAlerts(devices: seq<seq<StoredAlert>>) returns (alerts: seq<StoredAlert>)
    ensures multiset(alerts) == multiset(ActiveOf(devices))
    ensures Sorted(alerts, true)
  {
    var active := CollectActiveAlerts(devices);
    alerts := SortAlerts(active, true);
  }

  /** As written, rank never decreases down the list. */
  lemma AsWrittenOrder(s: seq<StoredAlert>, i: nat, j: nat)
    requires Sorted(s, false) && i < j < |s|
    ensures Rank(s[i]) >= Rank(s[j])
  {
    assert Precedes(s[i], s[j], false);
  }

  /** As written, only CRITICAL alerts may follow a CRITICAL alert: it comes after every
      alert of any other level. */
  lemma AsWrittenListsCriticalLast(s: seq<StoredAlert>, i: nat, j: nat)
    requires Sorted(s, false) && i < j < |s|
    requires s[i].severityLevel == Some("CRITICAL")
    ensures s[j].severityLevel == Some("CRITICAL")
  {
    AsWrittenOrder(s, i, j);
  }

  /** Two unresolved alerts of one device, one CRITICAL and one LOW. */
  function CriticalAlert(): StoredAlert {
    StoredAlert("d", Some("CRITICAL"), None, None, None)
  }

  function LowAlert(): StoredAlert {
    StoredAlert("d", Some("LOW"), None, None, None)
  }

  /** Both alerts of the example are listed. */
  lemma CounterexampleBothActive()
    ensures ActiveOf([[CriticalAlert(), LowAlert()]]) == [CriticalAlert(), LowAlert()]
  {
    var crit, low := CriticalAlert(), LowAlert();
    assert [crit, low][..1] == [crit];
    assert [crit][..0] == [];
    assert Unresolved([crit]) == [crit];
    assert Unresolved([crit, low]) == [crit, low];
    assert [[crit, low]][..0] == [];
  }

  /** As written the LOW alert must come first; the intended order puts CRITICAL first. */
  lemma AsWrittenCounterexample()
    ensures !Sorted([CriticalAlert(), LowAlert()], false) && Sorted([LowAlert(), CriticalAlert()], false)
    ensures Sorted([CriticalAlert(), LowAlert()], true) && !Sorted([LowAlert(), CriticalAlert()], true)
  {
    var crit, low := CriticalAlert(), LowAlert();
    assert Rank(crit) == 0 && Rank(low) == 3;
    assert !Precedes([crit, low][0], [crit, low][1], false);
    assert !Precedes([low, crit][0], [low, crit][1], true);
  }

  /** In the intended order, severity never decreases down the list and, within a
      level, timestamps never increase. */
  lemma IntendedOrder(s: seq<StoredAlert>, i: nat, j: nat)
    requires Sorted(s, true) && i < j < |s|
    ensures Rank(s[i]) <= Rank(s[j])
    ensures Rank(s[i]) == Rank(s[j]) ==> StrLe(Stamp(s[j]), Stamp(s[i]))
  {
    assert Precedes(s[i], s[j], true);
  }
}
