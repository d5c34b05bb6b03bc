/** The seven vital signs both simulators key their dictionaries by
    (`heartRate`, `oxygenLevel`, `temperature`, `systolicBP`, `diastolicBP`,
    `respiratoryRate`, `glucose`), as a fixed record instead of a dict. */
module VitalSigns {

  datatype VitalField =
    | HeartRate | OxygenLevel | Temperature | SystolicBP | DiastolicBP | RespiratoryRate | Glucose

  /** The fields in the order the simulators' dictionaries hold them. */
  const AllFields: seq<VitalField> :=
    [HeartRate, OxygenLevel, Temperature, SystolicBP, DiastolicBP, RespiratoryRate, Glucose]

  /** The dictionary key of a field. */
  function Key(f: VitalField): string {
    match f
    case HeartRate => "heartRate"
    case OxygenLevel => "oxygenLevel"
    case Temperature => "temperature"
    case SystolicBP => "systolicBP"
    case DiastolicBP => "diastolicBP"
    case RespiratoryRate => "respiratoryRate"
    case Glucose => "glucose"
  }

  /** Every field is listed, exactly once. */
  lemma AllFieldsComplete()
    ensures forall f :: f in AllFields
    ensures forall i, j :: 0 <= i < j < |AllFields| ==> AllFields[i] != AllFields[j]
  {
    forall f ensures f in AllFields {
      match f
      case HeartRate => assert AllFields[0] == f;
      case OxygenLevel => assert AllFields[1] == f;
      case Temperature => assert AllFields[2] == f;
      case SystolicBP => assert AllFields[3] == f;
      case DiastolicBP => assert AllFields[4] == f;
      case RespiratoryRate => assert AllFields[5] == f;
      case Glucose => assert AllFields[6] == f;
    }
  }

  /** The position of a field in `AllFields`. */
  function Index(f: VitalField): (i: nat)
    ensures i < |AllFields| && AllFields[i] == f
  {
    match f
    case HeartRate => 0
    case OxygenLevel => 1
    case Temperature => 2
    case SystolicBP => 3
    case DiastolicBP => 4
    case RespiratoryRate => 5
    case Glucose => 6
  }

  /** `Index` inverts `AllFields`: a loop over the positions visits each field once. */
  lemma IndexOfPosition(i: nat)
    requires i < |AllFields|
    ensures Index(AllFields[i]) == i
  {
  }

  datatype Vitals = Vitals(
    heartRate: real,
    oxygenLevel: real,
    temperature: real,
    systolicBP: real,
    diastolicBP: real,
    respiratoryRate: real,
    glucose: real)
  {
    /** `vitals[key]` */
    function Get(f: VitalField): real {
      match f
      case HeartRate => heartRate
      case OxygenLevel => oxygenLevel
      case Temperature => temperature
      case SystolicBP => systolicBP
      case DiastolicBP => diastolicBP
      case RespiratoryRate => respiratoryRate
      case Glucose => glucose
    }

    /** `vitals[key] = v`: only the named field changes. */
    function Set(f: VitalField, v: real): (r: Vitals)
      ensures r.Get(f) == v
      ensures forall g :: g != f ==> r.Get(g) == Get(g)
    {
      match f
      case HeartRate => this.(heartRate := v)
      case OxygenLevel => this.(oxygenLevel := v)
      case Temperature => this.(temperature := v)
      case SystolicBP => this.(systolicBP := v)
      case DiastolicBP => this.(diastolicBP := v)
      case RespiratoryRate => this.(respiratoryRate := v)
      case Glucose => this.(glucose := v)
    }
  }

  /** Two readings that agree on every field are the same reading. */
  lemma VitalsExtensional(a: Vitals, b: Vitals)
    requires forall f :: a.Get(f) == b.Get(f)
    ensures a == b
  {
    assert a.Get(HeartRate) == b.Get(HeartRate) && a.Get(OxygenLevel) == b.Get(OxygenLevel);
    assert a.Get(Temperature) == b.Get(Temperature) && a.Get(SystolicBP) == b.Get(SystolicBP);
    assert a.Get(DiastolicBP) == b.Get(DiastolicBP) && a.Get(RespiratoryRate) == b.Get(RespiratoryRate);
    assert a.Get(Glucose) == b.Get(Glucose);
  }

  /** `max(lo, min(hi, x))`, the clamp both simulators write out per field. */
  function Clamp(lo: real, hi: real, x: real): (r: real)
    requires lo <= hi
    ensures lo <= r <= hi
    ensures lo <= x <= hi ==> r == x
  {
    if x < lo then lo else if x > hi then hi else x
  }
}
