/** The bed, room, patient and device records of app/routers/beds.py and
    app/routers/rooms.py, and each assignment operation as a function from the tables
    before it to the tables after it and its HTTP outcome. The imperative store in
    store.dfy is proved to follow these functions; the lemmas here state what they
    guarantee. */
module Wards {
  import opened Common

  /** `beds/<id>`: the fields of `BedData` the operations read or write. */
  datatype Bed = Bed(roomId: string, bedType: string, status: string, patientId: Option<string>)

  /** `patients/<id>/personalInfo`: the bed and room the patient is placed in. */
  datatype Patient = Patient(bedId: Option<string>, roomId: Option<string>)

  /** `iotData/<id>/deviceInfo`: the room the device is assigned to. */
  datatype Device = Device(roomId: Option<string>)

  /** The body of a create or update request (`RoomData`). */
  datatype RoomData = RoomData(
    roomId: string,
    roomType: string,
    floor: int,
    capacity: int,
    assignedPatient: Option<string>,
    assignedDevices: seq<string>,
    status: string,
    description: Option<string>)

  /** `rooms/<id>`: the request body plus its creation and update times. */
  datatype Room = Room(data: RoomData, createdAt: string, updatedAt: string)

  /** An operation either completes or raises an `HTTPException` with a status code. */
  datatype Outcome = Done | Failed(code: int, detail: string)

  /** The four Firebase collections the routers touch; `bedOrder` is the order in which
      Firebase hands back the children of `beds`. */
  datatype Tables = Tables(
    beds: map<string, Bed>,
    bedOrder: seq<string>,
    patients: map<string, Patient>,
    rooms: map<string, Room>,
    devices: map<string, Device>)

  /** The tables after an operation and what it answered. */
  datatype Step = Step(tables: Tables, out: Outcome)

  /** `bedOrder` lists every bed exactly once. */
  predicate WellOrdered(t: Tables) {
    && (forall i, j :: 0 <= i < j < |t.bedOrder| ==> t.bedOrder[i] != t.bedOrder[j])
    && (forall id :: id in t.beds ==> id in t.bedOrder)
    && (forall i :: 0 <= i < |t.bedOrder| ==> t.bedOrder[i] in t.beds)
  }

  /** Two tables hold the same beds, under the same keys in the same order. */
  predicate SameBedKeys(t: Tables, u: Tables) {
    u.bedOrder == t.bedOrder && u.beds.Keys == t.beds.Keys
  }

  /** Keeping the beds' keys and order keeps the order well formed. */
  lemma SameBedKeysKeepOrder(t: Tables, u: Tables)
    requires WellOrdered(t) && SameBedKeys(t, u)
    ensures WellOrdered(u)
  {
  }

  // ---------------------------------------------------------------------------
  // Looking beds up (find_available_bed_in_room, update_room_status_based_on_beds)
  // ---------------------------------------------------------------------------

  /** The condition `find_available_bed_in_room` tests. */
  predicate Matches(b: Bed, roomId: string, bedType: Option<string>) {
    b.roomId == roomId && b.status == "available" && (bedType.None? || b.bedType == bedType.value)
  }

  /** The first bed in `order` that matches. */
  function FirstAvailable(order: seq<string>, beds: map<string, Bed>, roomId: string, bedType: Option<string>)
    : (r: Option<string>)
  {
    if order == [] then None
    else if order[0] in beds && Matches(beds[order[0]], roomId, bedType) then Some(order[0])
    else FirstAvailable(order[1..], beds, roomId, bedType)
  }

  /** The bed found is a matching bed and no bed listed before it matches; nothing is
      found exactly when no listed bed matches. */
  lemma {:induction false} FirstAvailableIsFirstMatch(order: seq<string>, beds: map<string, Bed>, roomId: string, bedType: Option<string>)
    ensures var r := FirstAvailable(order, beds, roomId, bedType);
      && (r.Some? ==> exists i :: (
            && 0 <= i < |order| && order[i] == r.value && r.value in beds
            && Matches(beds[r.value], roomId, bedType)
            && forall j :: 0 <= j < i && order[j] in beds ==> !Matches(beds[order[j]], roomId, bedType)))
      && (r.None? <==> forall i :: 0 <= i < |order| && order[i] in beds ==> !Matches(beds[order[i]], roomId, bedType))
  {
    if order != [] {
      FirstAvailableIsFirstMatch(order[1..], beds, roomId, bedType);
      var r := FirstAvailable(order, beds, roomId, bedType);
      if !(order[0] in beds && Matches(beds[order[0]], roomId, bedType)) {
        if r.Some? {
          var i :| 0 <= i < |order[1..]| && order[1..][i] == r.value && r.value in beds
            && Matches(beds[r.value], roomId, bedType)
            && forall j :: 0 <= j < i && order[1..][j] in beds ==> !Matches(beds[order[1..][j]], roomId, bedType);
          assert order[i + 1] == r.value;
          forall j | 0 <= j < i + 1 && order[j] in beds
            ensures !Matches(beds[order[j]], roomId, bedType)
          {
            if j > 0 {
              assert order[j] == order[1..][j - 1];
            }
          }
        } else {
          forall i | 0 <= i < |order| && order[i] in beds
            ensures !Matches(beds[order[i]], roomId, bedType)
          {
            if i > 0 {
              assert order[i] == order[1..][i - 1];
            }
          }
        }
      }
    }
  }

  /** Over a well-ordered table: the bed found is stored and matches, and nothing is
      found exactly when no stored bed matches. */
  lemma AvailableBedFound(t: Tables, roomId: string, bedType: Option<string>)
    requires WellOrdered(t)
    ensures var r := FirstAvailable(t.bedOrder, t.beds, roomId, bedType);
      && (r.Some? ==> r.value in t.beds && Matches(t.beds[r.value], roomId, bedType))
      && (r.None? <==> forall id :: id in t.beds ==> !Matches(t.beds[id], roomId, bedType))
  {
    FirstAvailableIsFirstMatch(t.bedOrder, t.beds, roomId, bedType);
    var r := FirstAvailable(t.bedOrder, t.beds, roomId, bedType);
    if r.None? {
      forall id | id in t.beds
        ensures !Matches(t.beds[id], roomId, bedType)
      {
        var i :| 0 <= i < |t.bedOrder| && t.bedOrder[i] == id;
      }
    }
  }

  /** The condition of the `occupied_beds` list: a bed of the room whose status is
      'occupied'. */
  predicate OccupiesRoom(b: Bed, roomId: string) {
    b.roomId == roomId && b.status == "occupied"
  }

  /** The ids of the room's occupied beds, in `order`. */
  function OccupiedIn(order: seq<string>, beds: map<string, Bed>, roomId: string): seq<string> {
    if order == [] then []
    else (if order[0] in beds && OccupiesRoom(beds[order[0]], roomId) then [order[0]] else []) + OccupiedIn(order[1..], beds, roomId)
  }

  /** The list holds exactly the listed beds of the room that are occupied. */
  lemma {:induction false} OccupiedInMembers(order: seq<string>, beds: map<string, Bed>, roomId: string)
    ensures forall id :: id in OccupiedIn(order, beds, roomId) <==> id in order && id in beds && OccupiesRoom(beds[id], roomId)
  {
    if order != [] {
      OccupiedInMembers(order[1..], beds, roomId);
      assert order == [order[0]] + order[1..];
    }
  }

  /** The first occupied bed of the room in `order` comes before every other one. */
  lemma {:induction false} OccupiedInKeepsOrder(order: seq<string>, beds: map<string, Bed>, roomId: string)
    requires OccupiedIn(order, beds, roomId) != []
    ensures exists i :: (
      && 0 <= i < |order| && order[i] == OccupiedIn(order, beds, roomId)[0]
      && forall j :: 0 <= j < i && order[j] in beds ==> !OccupiesRoom(beds[order[j]], roomId))
  {
    if !(order[0] in beds && OccupiesRoom(beds[order[0]], roomId)) {
      var tail := order[1..];
      OccupiedInKeepsOrder(tail, beds, roomId);
      var i :| 0 <= i < |tail| && tail[i] == OccupiedIn(tail, beds, roomId)[0]
        && forall j :: 0 <= j < i && tail[j] in beds ==> !OccupiesRoom(beds[tail[j]], roomId);
      assert order[i + 1] == tail[i];
      forall j | 0 <= j < i + 1 && order[j] in beds
        ensures !OccupiesRoom(beds[order[j]], roomId)
      {
        if j > 0 {
          assert order[j] == tail[j - 1];
        }
      }
    } else {
      assert order[0] == OccupiedIn(order, beds, roomId)[0];
    }
  }

  /** The status `update_room_status_based_on_beds` derives. */
  function StatusFromBeds(t: Tables, roomId: string): string {
    if OccupiedIn(t.bedOrder, t.beds, roomId) != [] then "occupied" else "available"
  }

  /** The patient rooms.py's recompute records: that of the first occupied bed. */
  function FirstOccupant(t: Tables, roomId: string): Option<string> {
    var occ := OccupiedIn(t.bedOrder, t.beds, roomId);
    if occ == [] then None
    else
      OccupiedInMembers(t.bedOrder, t.beds, roomId);
      assert occ[0] in occ;
      t.beds[occ[0]].patientId
  }

  /** beds.py's `update_room_status_based_on_beds`: only the status of an existing room. */
  function SetRoomStatus(t: Tables, roomId: string): (u: Tables)
    ensures SameBedKeys(t, u) && u.beds == t.beds && u.patients == t.patients && u.devices == t.devices
  {
    if roomId in t.rooms then
      var room := t.rooms[roomId];
      t.(rooms := t.rooms[roomId := room.(data := room.data.(status := StatusFromBeds(t, roomId)))])
    else t
  }

  /** rooms.py's `update_room_status_based_on_beds`: status and assigned patient of an
      existing room. */
  function RefreshRoom(t: Tables, roomId: string): (u: Tables)
    ensures SameBedKeys(t, u) && u.beds == t.beds && u.patients == t.patients && u.devices == t.devices
  {
    if roomId in t.rooms then
      var room := t.rooms[roomId];
      var data := room.data.(status := StatusFromBeds(t, roomId), assignedPatient := FirstOccupant(t, roomId));
      t.(rooms := t.rooms[roomId := room.(data := data)])
    else t
  }

  /** A room is marked occupied exactly when one of its beds is occupied, and available
      otherwise; a missing room and every other room are left alone. */
  lemma RoomStatusFollowsBeds(t: Tables, roomId: string, other: string)
    requires WellOrdered(t)
    ensures var u := SetRoomStatus(t, roomId);
      && (roomId in t.rooms ==> (
            && u.rooms.Keys == t.rooms.Keys
            && u.rooms[roomId].data == t.rooms[roomId].data.(status := u.rooms[roomId].data.status)
            && (u.rooms[roomId].data.status == "occupied" <==> exists id :: id in t.beds && OccupiesRoom(t.beds[id], roomId))
            && (u.rooms[roomId].data.status != "occupied" ==> u.rooms[roomId].data.status == "available")))
      && (roomId !in t.rooms ==> u == t)
      && (other != roomId && other in t.rooms ==> other in u.rooms && u.rooms[other] == t.rooms[other])
  {
    if roomId in t.rooms {
      var occ := OccupiedIn(t.bedOrder, t.beds, roomId);
      OccupiedInMembers(t.bedOrder, t.beds, roomId);
      if occ != [] {
        assert occ[0] in occ;
      }
      if exists id :: id in t.beds && OccupiesRoom(t.beds[id], roomId) {
        var id :| id in t.beds && OccupiesRoom(t.beds[id], roomId);
        assert id in OccupiedIn(t.bedOrder, t.beds, roomId);
      }
    }
  }

  /** rooms.py's recompute sets the same status as beds.py's and also names the patient
      of the first occupied bed in Firebase order, or nobody when no bed of the room is
      occupied. */
  lemma RefreshRoomNamesFirstOccupant(t: Tables, roomId: string)
    requires WellOrdered(t) && roomId in t.rooms
    ensures var d := RefreshRoom(t, roomId).rooms[roomId].data;
      && d.status == SetRoomStatus(t, roomId).rooms[roomId].data.status
      && d == t.rooms[roomId].data.(status := d.status, assignedPatient := d.assignedPatient)
      && (d.status != "occupied" ==> d.assignedPatient == None)
      && (d.status == "occupied" ==> exists i :: (
            && 0 <= i < |t.bedOrder| && t.beds[t.bedOrder[i]].patientId == d.assignedPatient
            && OccupiesRoom(t.beds[t.bedOrder[i]], roomId)
            && forall j :: 0 <= j < i ==> !OccupiesRoom(t.beds[t.bedOrder[j]], roomId)))
  {
    var occ := OccupiedIn(t.bedOrder, t.beds, roomId);
    OccupiedInMembers(t.bedOrder, t.beds, roomId);
    if occ != [] {
      OccupiedInKeepsOrder(t.bedOrder, t.beds, roomId);
      assert occ[0] in occ;
      var i :| 0 <= i < |t.bedOrder| && t.bedOrder[i] == occ[0]
        && forall j :: 0 <= j < i && t.bedOrder[j] in t.beds ==> !OccupiesRoom(t.beds[t.bedOrder[j]], roomId);
      forall j | 0 <= j < i
        ensures !OccupiesRoom(t.beds[t.bedOrder[j]], roomId)
      {
        assert t.bedOrder[j] in t.beds;
      }
    }
  }

  // ---------------------------------------------------------------------------
  // beds.py: assign_patient_to_bed, discharge_patient_from_bed
  // ---------------------------------------------------------------------------

  /** The bed marked free, as both routers write it. */
  function Freed(b: Bed): Bed {
    b.(patientId := None, status := "available")
  }

  /** The bed marked taken by `patientId`. */
  function TakenBy(b: Bed, patientId: string): Bed {
    b.(patientId := Some(patientId), status := "occupied")
  }

  /** `discharge_patient_from_bed` */
  function Discharge(t: Tables, bedId: string, patientId: string): (r: Step)
    ensures SameBedKeys(t, r.tables) && r.tables.patients.Keys == t.patients.Keys && r.tables.rooms.Keys == t.rooms.Keys
    ensures r.tables.devices == t.devices
  {
    if bedId !in t.beds then Step(t, Failed(404, "Bed not found"))
    else
      var bed := t.beds[bedId];
      if bed.patientId != Some(patientId) then Step(t, Failed(400, "Patient is not assigned to this bed"))
      else
        var t1 := t.(beds := t.beds[bedId := Freed(bed)]);
        var t2 := if patientId in t1.patients then t1.(patients := t1.patients[patientId := Patient(None, None)]) else t1;
        Step(SetRoomStatus(t2, bed.roomId), Done)
  }

  /** `assign_patient_to_bed` */
  function AssignToBed(t: Tables, bedId: string, patientId: string): (r: Step)
    ensures SameBedKeys(t, r.tables) && r.tables.patients.Keys == t.patients.Keys && r.tables.rooms.Keys == t.rooms.Keys
    ensures r.tables.devices == t.devices
  {
    if bedId !in t.beds then Step(t, Failed(404, "Bed not found"))
    else if t.beds[bedId].status != "available" then Step(t, Failed(400, "Bed is not available"))
    else if patientId !in t.patients then Step(t, Failed(404, "Patient not found"))
    else
      var current := t.patients[patientId].bedId;
      var first := if Truthy(current) && current.value != bedId then Discharge(t, current.value, patientId) else Step(t, Done);
      if first.out.Failed? then first
      else
        var bed := t.beds[bedId];
        var t1 := first.tables;
        var t2 := t1.(beds := t1.beds[bedId := TakenBy(bed, patientId)],
                      patients := t1.patients[patientId := Patient(Some(bedId), Some(bed.roomId))]);
        var t3 := if bed.roomId in t2.rooms && t2.rooms[bed.roomId].data.status != "occupied" then
            var room := t2.rooms[bed.roomId];
            t2.(rooms := t2.rooms[bed.roomId := room.(data := room.data.(status := "occupied"))])
          else t2;
        Step(t3, Done)
  }

  /** Discharging fails with 404 for a missing bed and with 400 when the bed does not
      hold the patient, changing nothing; otherwise the bed is free, the patient (if
      stored) is placed nowhere, and the bed's room is marked occupied exactly when one of
      its beds still is. */
  lemma DischargeFrees(t: Tables, bedId: string, patientId: string)
    requires WellOrdered(t)
    ensures var r := Discharge(t, bedId, patientId);
      && (r.out.Failed? ==> r.tables == t)
      && (r.out == Failed(404, "Bed not found") <==> bedId !in t.beds)
      && (r.out.Failed? && r.out.code == 400 <==> bedId in t.beds && t.beds[bedId].patientId != Some(patientId))
      && (r.out.Done? ==> (
            && r.tables.beds == t.beds[bedId := Freed(t.beds[bedId])]
            && (patientId in t.patients ==> r.tables.patients[patientId] == Patient(None, None))
            && (forall q :: q in t.patients && q != patientId ==> r.tables.patients[q] == t.patients[q])
            && var roomId := t.beds[bedId].roomId;
               roomId in t.rooms ==>
                 ((r.tables.rooms[roomId].data.status == "occupied") <==>
                   exists id :: id in r.tables.beds && OccupiesRoom(r.tables.beds[id], roomId))))
  {
    var r := Discharge(t, bedId, patientId);
    if r.out.Done? {
      var bed := t.beds[bedId];
      var t1 := t.(beds := t.beds[bedId := Freed(bed)]);
      var t2 := if patientId in t1.patients then t1.(patients := t1.patients[patientId := Patient(None, None)]) else t1;
      assert WellOrdered(t2);
      RoomStatusFollowsBeds(t2, bed.roomId, bed.roomId);
    }
  }

  /** Assigning fails with 404 for a missing bed, 400 for a bed that is not available and
      404 for a missing patient, and with the discharge's error when the patient's
      previous bed cannot be released; every failure leaves the tables as they were. */
  lemma AssignToBedRejects(t: Tables, bedId: string, patientId: string)
    ensures var r := AssignToBed(t, bedId, patientId);
      && (r.out.Failed? ==> r.tables == t)
      && (bedId !in t.beds ==> r.out == Failed(404, "Bed not found"))
      && (bedId in t.beds && t.beds[bedId].status != "available" ==> r.out == Failed(400, "Bed is not available"))
      && ((bedId in t.beds && t.beds[bedId].status == "available" && patientId !in t.patients) ==>
            r.out == Failed(404, "Patient not found"))
      && (r.out.Done? <==> (
            && bedId in t.beds && t.beds[bedId].status == "available" && patientId in t.patients
            && var current := t.patients[patientId].bedId;
               (Truthy(current) && current.value != bedId) ==>
                 current.value in t.beds && t.beds[current.value].patientId == Some(patientId)))
  {
  }

  /** A successful assignment puts the patient in the bed and the bed's room, and marks
      an existing room occupied. */
  lemma AssignToBedPlaces(t: Tables, bedId: string, patientId: string)
    ensures var r := AssignToBed(t, bedId, patientId);
      r.out.Done? ==> (
        && r.tables.beds[bedId] == TakenBy(t.beds[bedId], patientId)
        && r.tables.patients[patientId] == Patient(Some(bedId), Some(t.beds[bedId].roomId))
        && (t.beds[bedId].roomId in t.rooms ==> r.tables.rooms[t.beds[bedId].roomId].data.status == "occupied"))
  {
  }

  /** A successful assignment releases the patient's previous bed and leaves every other
      bed as it was. */
  lemma AssignToBedReleases(t: Tables, bedId: string, patientId: string)
    ensures var r := AssignToBed(t, bedId, patientId);
      r.out.Done? ==> (
        && (var current := t.patients[patientId].bedId;
            Truthy(current) && current.value != bedId ==> r.tables.beds[current.value] == Freed(t.beds[current.value]))
        && (forall id :: id in t.beds && id != bedId && Some(id) != t.patients[patientId].bedId ==> r.tables.beds[id] == t.beds[id]))
  {
    var r := AssignToBed(t, bedId, patientId);
    if r.out.Done? {
      var current := t.patients[patientId].bedId;
      var first := if Truthy(current) && current.value != bedId then Discharge(t, current.value, patientId) else Step(t, Done);
      assert r.tables.beds == first.tables.beds[bedId := TakenBy(t.beds[bedId], patientId)];
      if Truthy(current) && current.value != bedId {
        DischargeSetsBed(t, current.value, patientId);
      }
      forall id | id in t.beds && id != bedId && Some(id) != current
        ensures r.tables.beds[id] == t.beds[id]
      {
      }
    }
  }

  /** A discharge that succeeds changes no bed but the one it frees. */
  lemma DischargeSetsBed(t: Tables, bedId: string, patientId: string)
    ensures var d := Discharge(t, bedId, patientId);
      d.out.Done? ==> d.tables.beds == t.beds[bedId := Freed(t.beds[bedId])]
  {
  }

  // ---------------------------------------------------------------------------
  // rooms.py: assign/unassign patient and devices
  // ---------------------------------------------------------------------------

  /** `assign_patient_to_room`: the first available bed of the room, whatever its type.
      Its "Bed not found" branch cannot be taken, since the bed found is stored. */
  function AssignToRoom(t: Tables, roomId: string, patientId: string): (r: Step)
    ensures SameBedKeys(t, r.tables) && r.tables.patients.Keys == t.patients.Keys && r.tables.rooms.Keys == t.rooms.Keys
    ensures r.tables.devices == t.devices
  {
    if patientId !in t.patients then Step(t, Failed(404, "Patient not found"))
    else
      var found := FirstAvailable(t.bedOrder, t.beds, roomId, None);
      FirstAvailableIsFirstMatch(t.bedOrder, t.beds, roomId, None);
      if found.None? then Step(t, Failed(400, "No available beds in room " + roomId))
      else
        var bedId := found.value;
        var t1 := t.(beds := t.beds[bedId := TakenBy(t.beds[bedId], patientId)],
                     patients := t.patients[patientId := Patient(Some(bedId), Some(roomId))]);
        if roomId in t1.rooms then
          var room := t1.rooms[roomId];
          Step(t1.(rooms := t1.rooms[roomId := room.(data := room.data.(assignedPatient := Some(patientId), status := "occupied"))]), Done)
        else Step(t1, Done)
  }

  /** Assigning to a room fails with 404 for a missing patient and 400 when the room has
      no available bed, changing nothing; otherwise an available bed of the room now
      holds the patient, the patient is placed in that bed and room, and an existing room
      names the patient and is occupied. */
  lemma AssignToRoomPlaces(t: Tables, roomId: string, patientId: string)
    requires WellOrdered(t)
    ensures var r := AssignToRoom(t, roomId, patientId);
      && (r.out.Failed? ==> r.tables == t)
      && (r.out == Failed(404, "Patient not found") <==> patientId !in t.patients)
      && ((r.out.Failed? && r.out.code == 400) <==>
            patientId in t.patients && forall id :: id in t.beds ==> !Matches(t.beds[id], roomId, None))
      && (r.out.Done? ==> exists bedId :: (
            && bedId in t.beds && Matches(t.beds[bedId], roomId, None)
            && r.tables.beds == t.beds[bedId := TakenBy(t.beds[bedId], patientId)]
            && r.tables.patients == t.patients[patientId := Patient(Some(bedId), Some(roomId))]))
      && (r.out.Done? && roomId in t.rooms ==> (
            && r.tables.rooms[roomId].data.assignedPatient == Some(patientId)
            && r.tables.rooms[roomId].data.status == "occupied"))
  {
    AvailableBedFound(t, roomId, None);
  }

  /** Unlike `assign_patient_to_bed`, assigning to a room does not release the bed the
      patient already had: that bed keeps naming the patient. */
  lemma AssignToRoomKeepsPreviousBed(t: Tables, roomId: string, patientId: string)
    requires patientId in t.patients && Truthy(t.patients[patientId].bedId)
    requires t.patients[patientId].bedId.value in t.beds
    requires FirstAvailable(t.bedOrder, t.beds, roomId, None) != t.patients[patientId].bedId
    ensures var previous := t.patients[patientId].bedId.value;
      AssignToRoom(t, roomId, patientId).tables.beds[previous] == t.beds[previous]
  {
  }

  /** `unassign_patient_from_room` */
  function UnassignPatient(t: Tables, patientId: string): (u: Tables)
    ensures SameBedKeys(t, u) && u.patients.Keys == t.patients.Keys && u.rooms.Keys == t.rooms.Keys
    ensures u.devices == t.devices
  {
    if patientId !in t.patients then t
    else
      var p := t.patients[patientId];
      var t1 := if Truthy(p.bedId) && p.bedId.value in t.beds then t.(beds := t.beds[p.bedId.value := Freed(t.beds[p.bedId.value])]) else t;
      var t2 := t1.(patients := t1.patients[patientId := Patient(None, None)]);
      if Truthy(p.roomId) then RefreshRoom(t2, p.roomId.value) else t2
  }

  /** Unassigning a missing patient changes nothing; otherwise the patient's recorded bed
      is freed, the patient is placed nowhere, and the recorded room is recomputed from
      the beds as they are after the release. */
  lemma UnassignPatientFrees(t: Tables, patientId: string)
    requires WellOrdered(t)
    ensures var u := UnassignPatient(t, patientId);
      && (patientId !in t.patients ==> u == t)
      && (patientId in t.patients ==> (
            && var p := t.patients[patientId];
            && u.patients == t.patients[patientId := Patient(None, None)]
            && u.beds == (if Truthy(p.bedId) && p.bedId.value in t.beds then t.beds[p.bedId.value := Freed(t.beds[p.bedId.value])] else t.beds)
            && (Truthy(p.roomId) && p.roomId.value in t.rooms ==>
                  ((u.rooms[p.roomId.value].data.status == "occupied") <==>
                    exists id :: id in u.beds && OccupiesRoom(u.beds[id], p.roomId.value)))
            && (forall other :: other in t.rooms && (!Truthy(p.roomId) || other != p.roomId.value) ==> u.rooms[other] == t.rooms[other])))
  {
    if patientId in t.patients {
      var p := t.patients[patientId];
      var t1 := if Truthy(p.bedId) && p.bedId.value in t.beds then t.(beds := t.beds[p.bedId.value := Freed(t.beds[p.bedId.value])]) else t;
      var t2 := t1.(patients := t1.patients[patientId := Patient(None, None)]);
      assert WellOrdered(t2);
      if Truthy(p.roomId) && p.roomId.value in t.rooms {
        RefreshRoomNamesFirstOccupant(t2, p.roomId.value);
        RoomStatusFollowsBeds(t2, p.roomId.value, p.roomId.value);
      }
    }
  }

  /** `assign_device_to_room` */
  function AssignDevice(t: Tables, roomId: string, deviceId: string): (r: Step)
    ensures r.tables == t.(devices := r.tables.devices) && r.tables.devices.Keys == t.devices.Keys
    ensures r.out.Failed? <==> deviceId !in t.devices
    ensures r.out.Done? ==> r.tables.devices == t.devices[deviceId := Device(Some(roomId))]
  {
    if deviceId !in t.devices then Step(t, Failed(404, "Device not found"))
    else Step(t.(devices := t.devices[deviceId := Device(Some(roomId))]), Done)
  }

  /** `unassign_device_from_room` */
  function UnassignDevice(t: Tables, deviceId: string): (u: Tables)
    ensures u == t.(devices := u.devices) && u.devices.Keys == t.devices.Keys
  {
    if deviceId in t.devices then t.(devices := t.devices[deviceId := Device(None)]) else t
  }

  /** The devices of a list assigned one after the other, stopping at the first that is
      missing. */
  function AssignDevices(t: Tables, roomId: string, ids: seq<string>): (r: Step)
    ensures r.tables == t.(devices := r.tables.devices) && r.tables.devices.Keys == t.devices.Keys
    ensures r.out.Failed? <==> exists i :: 0 <= i < |ids| && ids[i] !in t.devices
    ensures r.out.Done? ==> forall d :: d in t.devices ==>
      r.tables.devices[d] == (if d in ids then Device(Some(roomId)) else t.devices[d])
    decreases |ids|
  {
    if ids == [] then Step(t, Done)
    else
      var first := AssignDevice(t, roomId, ids[0]);
      if first.out.Failed? then first
      else
        var r := AssignDevices(first.tables, roomId, ids[1..]);
        assert forall i :: 0 < i < |ids| ==> ids[i] == ids[1..][i - 1];
        assert forall d :: d in ids ==> d == ids[0] || d in ids[1..];
        r
  }

  /** The devices of a list unassigned one after the other. */
  function UnassignDevices(t: Tables, ids: seq<string>): (u: Tables)
    ensures u == t.(devices := u.devices) && u.devices.Keys == t.devices.Keys
    ensures forall d :: d in t.devices ==> u.devices[d] == (if d in ids then Device(None) else t.devices[d])
    decreases |ids|
  {
    if ids == [] then t
    else
      assert forall d :: d in ids ==> d == ids[0] || d in ids[1..];
      UnassignDevices(UnassignDevice(t, ids[0]), ids[1..])
  }

  // ---------------------------------------------------------------------------
  // rooms.py: create_room, update_room, delete_room
  // ---------------------------------------------------------------------------

  /** `create_room`, with `now` the creation time. */
  function CreateRoom(t: Tables, data: RoomData, now: string): (r: Step)
    ensures SameBedKeys(t, r.tables)
  {
    if data.roomId in t.rooms then Step(t, Failed(400, "Room already exists"))
    else
      var t1 := t.(rooms := t.rooms[data.roomId := Room(data, now, now)]);
      var placed := if Truthy(data.assignedPatient) then AssignToRoom(t1, data.roomId, data.assignedPatient.value) else Step(t1, Done);
      if placed.out.Failed? then placed
      else AssignDevices(placed.tables, data.roomId, data.assignedDevices)
  }

  /** Creating fails with 400 on an existing room id and changes nothing. Otherwise the
      room is stored even when a later assignment fails; on success the requested
      patient is placed in one of the room's beds and every listed device is in the
      room. */
  lemma CreateRoomStores(t: Tables, data: RoomData, now: string)
    requires WellOrdered(t)
    ensures var r := CreateRoom(t, data, now);
      && (data.roomId in t.rooms <==> r == Step(t, Failed(400, "Room already exists")))
      && (data.roomId !in t.rooms ==> data.roomId in r.tables.rooms && r.tables.rooms.Keys == t.rooms.Keys + {data.roomId})
      && (r.out.Done? ==> (
            && (forall d :: d in data.assignedDevices ==> d in r.tables.devices && r.tables.devices[d] == Device(Some(data.roomId)))
            && (Truthy(data.assignedPatient) ==> (
                  && var p := r.tables.patients[data.assignedPatient.value];
                  && p.roomId == Some(data.roomId) && p.bedId.Some? && p.bedId.value in r.tables.beds
                  && r.tables.beds[p.bedId.value].roomId == data.roomId
                  && r.tables.beds[p.bedId.value].patientId == data.assignedPatient
                  && r.tables.rooms[data.roomId].data.status == "occupied"))))
  {
    var r := CreateRoom(t, data, now);
    if data.roomId !in t.rooms && Truthy(data.assignedPatient) {
      var t1 := t.(rooms := t.rooms[data.roomId := Room(data, now, now)]);
      assert WellOrdered(t1);
      AssignToRoomPlaces(t1, data.roomId, data.assignedPatient.value);
    }
  }

  /** The part of `update_room` before the device loops: the new record is stored under
      the path's id, keeping the creation time, and a changed patient is unassigned and
      the new one assigned. */
  function UpdateRoomRecord(t: Tables, roomId: string, data: RoomData, now: string): (r: Step)
    ensures SameBedKeys(t, r.tables) && r.tables.devices == t.devices
    ensures r.out.Done? ==> roomId in r.tables.rooms
  {
    if roomId !in t.rooms then Step(t, Failed(404, "Room not found"))
    else
      var current := t.rooms[roomId];
      var t1 := t.(rooms := t.rooms[roomId := Room(data, current.createdAt, now)]);
      if current.data.assignedPatient == data.assignedPatient then Step(t1, Done)
      else
        var t2 := if Truthy(current.data.assignedPatient) then UnassignPatient(t1, current.data.assignedPatient.value) else t1;
        if Truthy(data.assignedPatient) then AssignToRoom(t2, roomId, data.assignedPatient.value) else Step(t2, Done)
  }

  /** The devices of a set given no room. */
  function DetachAll(devices: map<string, Device>, ids: set<string>): (m: map<string, Device>)
    ensures m.Keys == devices.Keys
  {
    map d | d in devices :: if d in ids then Device(None) else devices[d]
  }

  /** The devices of a set given the room. */
  function AttachAll(devices: map<string, Device>, ids: set<string>, roomId: string): (m: map<string, Device>)
    ensures m.Keys == devices.Keys
  {
    map d | d in devices :: if d in ids then Device(Some(roomId)) else devices[d]
  }

  /** `set(room.assignedDevices)` */
  function DeviceSet(ids: seq<string>): set<string> {
    set d | d in ids
  }

  /** The device diff of `update_room`: devices dropped from the list lose their room,
      devices added to it get the room, and devices on both lists or on neither are left
      alone. */
  lemma DeviceDiffMoves(devices: map<string, Device>, current: set<string>, wanted: set<string>, roomId: string)
    ensures var after := AttachAll(DetachAll(devices, current - wanted), wanted - current, roomId);
      && after.Keys == devices.Keys
      && forall d :: d in devices ==>
           after[d] == (if d in current && d !in wanted then Device(None)
                        else if d in wanted && d !in current then Device(Some(roomId))
                        else devices[d])
  {
  }

  /** Updating fails with 404 for a missing room and changes nothing; a kept patient is
      left alone, and a replaced one is unassigned before the new one is assigned. */
  lemma UpdateRoomRecordPatient(t: Tables, roomId: string, data: RoomData, now: string)
    requires WellOrdered(t)
    ensures var r := UpdateRoomRecord(t, roomId, data, now);
      && (r.out == Failed(404, "Room not found") <==> roomId !in t.rooms)
      && (roomId !in t.rooms ==> r.tables == t)
      && (roomId in t.rooms && t.rooms[roomId].data.assignedPatient == data.assignedPatient ==> (
            && r.out.Done? && r.tables.rooms[roomId] == Room(data, t.rooms[roomId].createdAt, now)
            && r.tables.beds == t.beds && r.tables.patients == t.patients))
      && (r.out.Done? && roomId in t.rooms && t.rooms[roomId].data.assignedPatient != data.assignedPatient ==> (
            && (Truthy(data.assignedPatient) ==> (
                  && r.tables.patients[data.assignedPatient.value].roomId == Some(roomId)
                  && r.tables.rooms[roomId].data.assignedPatient == data.assignedPatient))
            && var before := t.rooms[roomId].data.assignedPatient;
               (Truthy(before) && before.value in t.patients && before != data.assignedPatient) ==>
                 r.tables.patients[before.value] == Patient(None, None)))
  {
    if roomId in t.rooms && t.rooms[roomId].data.assignedPatient != data.assignedPatient {
      var current := t.rooms[roomId];
      var t1 := t.(rooms := t.rooms[roomId := Room(data, current.createdAt, now)]);
      assert WellOrdered(t1);
      var t2 := if Truthy(current.data.assignedPatient) then UnassignPatient(t1, current.data.assignedPatient.value) else t1;
      assert WellOrdered(t2);
      if Truthy(data.assignedPatient) {
        AssignToRoomPlaces(t2, roomId, data.assignedPatient.value);
      }
    }
  }

  /** `delete_room` */
  function DeleteRoom(t: Tables, roomId: string): (r: Step)
    ensures SameBedKeys(t, r.tables)
  {
    if roomId !in t.rooms then Step(t, Failed(404, "Room not found"))
    else
      var data := t.rooms[roomId].data;
      var t1 := if Truthy(data.assignedPatient) then UnassignPatient(t, data.assignedPatient.value) else t;
      var t2 := UnassignDevices(t1, data.assignedDevices);
      Step(t2.(rooms := t2.rooms - {roomId}), Done)
  }

  /** Deleting fails with 404 for a missing room and changes nothing; otherwise the room
      is gone, its patient is placed nowhere and each of its devices has no room. */
  lemma DeleteRoomReleases(t: Tables, roomId: string)
    ensures var r := DeleteRoom(t, roomId);
      && (r.out.Failed? <==> roomId !in t.rooms)
      && (r.out.Failed? ==> r == Step(t, Failed(404, "Room not found")))
      && (r.out.Done? ==> (
            && r.tables.rooms.Keys == t.rooms.Keys - {roomId}
            && (forall d :: d in t.devices ==> (r.tables.devices[d]
                  == (if d in t.rooms[roomId].data.assignedDevices then Device(None) else t.devices[d])))
            && var p := t.rooms[roomId].data.assignedPatient;
               Truthy(p) && p.value in t.patients ==> r.tables.patients[p.value] == Patient(None, None)))
  {
  }
}
