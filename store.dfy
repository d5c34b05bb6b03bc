/** The Firebase collections `beds`, `patients`, `rooms` and `iotData` as an in-memory
    store that the handlers of app/routers/beds.py and app/routers/rooms.py update in
    place. Every handler is proved to leave the store as the matching function of
    wards.dfy says, and to answer what it answers. */
module HospitalStore {
  import opened Common
  import opened Wards

  class Store {
    var beds: map<string, Bed>
    /** The order in which the `beds` collection hands back its children. */
    var bedOrder: seq<string>
    var patients: map<string, Patient>
    var rooms: map<string, Room>
    var devices: map<string, Device>

    /** The store's current contents. */
    function Snapshot(): Tables
      reads this
    {
      Tables(beds, bedOrder, patients, rooms, devices)
    }

    /** `bedOrder` lists every bed once. No handler adds or removes a bed or reorders
        them (each function of wards.dfy keeps `SameBedKeys`), so this holds for good
        once the store is built. */
    ghost predicate Valid()
      reads this
    {
      WellOrdered(Snapshot())
    }

    constructor (t: Tables)
      requires WellOrdered(t)
      ensures Snapshot() == t && Valid()
    {
      beds := t.beds;
      bedOrder := t.bedOrder;
      patients := t.patients;
      rooms := t.rooms;
      devices := t.devices;
    }

    /** `find_available_bed_in_room` (beds.py and rooms.py hold the same loop): the first
        bed in Firebase order of the room, available and of the requested type. */
    method FindAvailableBed(roomId: string, bedType: Option<string>) returns (r: Option<string>)
      ensures r == FirstAvailable(bedOrder, beds, roomId, bedType)
    {
      for i := 0 to |bedOrder|
        invariant FirstAvailable(bedOrder[i..], beds, roomId, bedType) == FirstAvailable(bedOrder, beds, roomId, bedType)
      {
        assert bedOrder[i..][1..] == bedOrder[i + 1..];
        var id := bedOrder[i];
        if id in beds && Matches(beds[id], roomId, bedType) {
          return Some(id);
        }
      }
      return None;
    }

    /** The occupied beds of a room, gathered in Firebase order. */
    method OccupiedBeds(roomId: string) returns (occupied: seq<string>)
      ensures occupied == OccupiedIn(bedOrder, beds, roomId)
    {
      occupied := [];
      for i := 0 to |bedOrder|
        invariant occupied + OccupiedIn(bedOrder[i..], beds, roomId) == OccupiedIn(bedOrder, beds, roomId)
      {
        assert bedOrder[i..][1..] == bedOrder[i + 1..];
        var id := bedOrder[i];
        if id in beds && OccupiesRoom(beds[id], roomId) {
          occupied := occupied + [id];
        }
      }
    }

    /** beds.py's `update_room_status_based_on_beds`: an existing room's status follows
        its beds. */
    method UpdateRoomStatus(roomId: string)
      requires Valid()
      modifies this
      ensures Valid()
      ensures Snapshot() == SetRoomStatus(old(Snapshot()), roomId)
    {
      var occupied := OccupiedBeds(roomId);
      if roomId in rooms {
        var room := rooms[roomId];
        var newStatus := if occupied != [] then "occupied" else "available";
        if room.data.status != newStatus {
          rooms := rooms[roomId := room.(data := room.data.(status := newStatus))];
        } else {
          assert room.(data := room.data.(status := newStatus)) == room;
        }
      }
    }

    /** rooms.py's `update_room_status_based_on_beds`: an existing room's status and
        assigned patient follow its beds. */
    method RefreshRoomOccupancy(roomId: string)
      requires Valid()
      modifies this
      ensures Valid()
      ensures Snapshot() == RefreshRoom(old(Snapshot()), roomId)
    {
      var occupied := OccupiedBeds(roomId);
      if roomId in rooms {
        var room := rooms[roomId];
        var newStatus := if occupied != [] then "occupied" else "available";
        var assignedPatient := None;
        if occupied != [] {
          OccupiedInMembers(bedOrder, beds, roomId);
          assert occupied[0] in occupied;
          assignedPatient := beds[occupied[0]].patientId;
        }
        rooms := rooms[roomId := room.(data := room.data.(status := newStatus, assignedPatient := assignedPatient))];
      }
    }

    /** `discharge_patient_from_bed` */
    method DischargePatientFromBed(bedId: string, patientId: string) returns (out: Outcome)
      requires Valid()
      modifies this
      ensures Valid()
      ensures Step(Snapshot(), out) == Discharge(old(Snapshot()), bedId, patientId)
    {
      if bedId !in beds {
        return Failed(404, "Bed not found");
      }
      var bed := beds[bedId];
      if bed.patientId != Some(patientId) {
        return Failed(400, "Patient is not assigned to this bed");
      }
      beds := beds[bedId := Freed(bed)];
      if patientId in patients {
        patients := patients[patientId := Patient(None, None)];
      }
      UpdateRoomStatus(bed.roomId);
      return Done;
    }

    /** `assign_patient_to_bed` */
    method AssignPatientToBed(bedId: string, patientId: string) returns (out: Outcome)
      requires Valid()
      modifies this
      ensures Valid()
      ensures Step(Snapshot(), out) == AssignToBed(old(Snapshot()), bedId, patientId)
    {
      if bedId !in beds {
        return Failed(404, "Bed not found");
      }
      var bed := beds[bedId];
      if bed.status != "available" {
        return Failed(400, "Bed is not available");
      }
      if patientId !in patients {
        return Failed(404, "Patient not found");
      }
      var current := patients[patientId].bedId;
      if Truthy(current) && current.value != bedId {
        out := DischargePatientFromBed(current.value, patientId);
        if out.Failed? {
          return;
        }
      }
      beds := beds[bedId := TakenBy(bed, patientId)];
      patients := patients[patientId := Patient(Some(bedId), Some(bed.roomId))];
      if bed.roomId in rooms && rooms[bed.roomId].data.status != "occupied" {
        var room := rooms[bed.roomId];
        rooms := rooms[bed.roomId := room.(data := room.data.(status := "occupied"))];
      }
      return Done;
    }

    /** `assign_patient_to_room` */
    method AssignPatientToRoom(roomId: string, patientId: string) returns (out: Outcome)
      requires Valid()
      modifies this
      ensures Valid()
      ensures Step(Snapshot(), out) == AssignToRoom(old(Snapshot()), roomId, patientId)
    {
      if patientId !in patients {
        return Failed(404, "Patient not found");
      }
      var found := FindAvailableBed(roomId, None);
      FirstAvailableIsFirstMatch(bedOrder, beds, roomId, None);
      if found.None? {
        return Failed(400, "No available beds in room " + roomId);
      }
      var bedId := found.value;
      beds := beds[bedId := TakenBy(beds[bedId], patientId)];
      patients := patients[patientId := Patient(Some(bedId), Some(roomId))];
      if roomId in rooms {
        var room := rooms[roomId];
        rooms := rooms[roomId := room.(data := room.data.(assignedPatient := Some(patientId), status := "occupied"))];
      }
      return Done;
    }

    /** `unassign_patient_from_room` */
    method UnassignPatientFromRoom(patientId: string)
      requires Valid()
      modifies this
      ensures Valid()
      ensures Snapshot() == UnassignPatient(old(Snapshot()), patientId)
    {
      if patientId in patients {
        var p := patients[patientId];
        if Truthy(p.bedId) && p.bedId.value in beds {
          beds := beds[p.bedId.value := Freed(beds[p.bedId.value])];
        }
        patients := patients[patientId := Patient(None, None)];
        if Truthy(p.roomId) {
          RefreshRoomOccupancy(p.roomId.value);
        }
      }
    }

    /** `assign_device_to_room` */
    method AssignDeviceToRoom(roomId: string, deviceId: string) returns (out: Outcome)
      requires Valid()
      modifies this
      ensures Valid()
      ensures Step(Snapshot(), out) == AssignDevice(old(Snapshot()), roomId, deviceId)
    {
      if deviceId !in devices {
        return Failed(404, "Device not found");
      }
      devices := devices[deviceId := Device(Some(roomId))];
      return Done;
    }

    /** `unassign_device_from_room` */
    method UnassignDeviceFromRoom(deviceId: string)
      requires Valid()
      modifies this
      ensures Valid()
      ensures Snapshot() == UnassignDevice(old(Snapshot()), deviceId)
    {
      if deviceId in devices {
        devices := devices[deviceId := Device(None)];
      }
    }

    /** `create_room`, with `now` the creation time. */
    method CreateRoom(data: RoomData, now: string) returns (out: Outcome)
      requires Valid()
      modifies this
      ensures Valid()
      ensures Step(Snapshot(), out) == Wards.CreateRoom(old(Snapshot()), data, now)
    {
      if data.roomId in rooms {
        return Failed(400, "Room already exists");
      }
      rooms := rooms[data.roomId := Room(data, now, now)];
      if Truthy(data.assignedPatient) {
        out := AssignPatientToRoom(data.roomId, data.assignedPatient.value);
        if out.Failed? {
          return;
        }
      }
      ghost var placed := Snapshot();
      var ids := data.assignedDevices;
      for i := 0 to |ids|
        invariant AssignDevices(Snapshot(), data.roomId, ids[i..]) == AssignDevices(placed, data.roomId, ids)
      {
        assert ids[i..][1..] == ids[i + 1..];
        out := AssignDeviceToRoom(data.roomId, ids[i]);
        if out.Failed? {
          return;
        }
      }
      return Done;
    }

    /** The loop of `update_room` that takes dropped devices out of the room. */
    method DetachDevices(ids: set<string>)
      requires Valid()
      modifies this
      ensures Valid()
      ensures Snapshot() == old(Snapshot()).(devices := DetachAll(old(devices), ids))
    {
      var todo := ids;
      while todo != {}
        invariant todo <= ids
        invariant Snapshot() == old(Snapshot()).(devices := DetachAll(old(devices), ids - todo))
        decreases |todo|
      {
        var d :| d in todo;
        UnassignDeviceFromRoom(d);
        todo := todo - {d};
      }
    }

    /** The loop of `update_room` that puts added devices in the room; it stops at the
        first missing device, and which devices came before it is left open. */
    method AttachDevices(ids: set<string>, roomId: string) returns (out: Outcome)
      requires Valid()
      modifies this
      ensures Valid()
      ensures Snapshot() == old(Snapshot()).(devices := devices) && devices.Keys == old(devices).Keys
      ensures out.Done? <==> ids <= old(devices).Keys
      ensures out.Done? ==> devices == AttachAll(old(devices), ids, roomId)
      ensures out.Failed? ==> (
        && out == Failed(404, "Device not found")
        && forall d :: d in old(devices) ==> devices[d] == old(devices)[d] || (d in ids && devices[d] == Device(Some(roomId))))
    {
      var todo := ids;
      while todo != {}
        invariant todo <= ids
        invariant ids - todo <= old(devices).Keys
        invariant Snapshot() == old(Snapshot()).(devices := AttachAll(old(devices), ids - todo, roomId))
        decreases |todo|
      {
        var d :| d in todo;
        out := AssignDeviceToRoom(roomId, d);
        if out.Failed? {
          return;
        }
        todo := todo - {d};
      }
      return Done;
    }

    /** `update_room`, with `now` the update time. The device loops run over Python sets,
        whose order is not fixed: when a device to add is missing, which of the others
        were added before the failure is left open. */
    method UpdateRoom(roomId: string, data: RoomData, now: string) returns (out: Outcome)
      requires Valid()
      modifies this
      ensures Valid()
      ensures var s := UpdateRoomRecord(old(Snapshot()), roomId, data, now);
        && (s.out.Failed? ==> Snapshot() == s.tables && out == s.out)
        && (s.out.Done? ==> Snapshot() == s.tables.(devices := devices))
      ensures roomId in old(rooms) && UpdateRoomRecord(old(Snapshot()), roomId, data, now).out.Done? ==> (
        && var current := DeviceSet(old(rooms)[roomId].data.assignedDevices);
        && var wanted := DeviceSet(data.assignedDevices);
        && var detached := DetachAll(old(devices), current - wanted);
        && (out.Done? <==> wanted - current <= old(devices).Keys)
        && (out.Done? ==> devices == AttachAll(detached, wanted - current, roomId))
        && devices.Keys == old(devices).Keys
        && (out.Failed? ==> (
              && out == Failed(404, "Device not found")
              && forall d :: d in detached ==> devices[d] == detached[d] || (d in wanted - current && devices[d] == Device(Some(roomId))))))
    {
      if roomId !in rooms {
        return Failed(404, "Room not found");
      }
      var current := rooms[roomId];
      rooms := rooms[roomId := Room(data, current.createdAt, now)];
      if current.data.assignedPatient != data.assignedPatient {
        if Truthy(current.data.assignedPatient) {
          UnassignPatientFromRoom(current.data.assignedPatient.value);
        }
        if Truthy(data.assignedPatient) {
          out := AssignPatientToRoom(roomId, data.assignedPatient.value);
          if out.Failed? {
            return;
          }
        }
      }
      var currentDevices := DeviceSet(current.data.assignedDevices);
      var wantedDevices := DeviceSet(data.assignedDevices);
      DetachDevices(currentDevices - wantedDevices);
      out := AttachDevices(wantedDevices - currentDevices, roomId);
    }

    /** `delete_room` */
    method DeleteRoom(roomId: string) returns (out: Outcome)
      requires Valid()
      modifies this
      ensures Valid()
      ensures Step(Snapshot(), out) == Wards.DeleteRoom(old(Snapshot()), roomId)
    {
      if roomId !in rooms {
        return Failed(404, "Room not found");
      }
      var data := rooms[roomId].data;
      if Truthy(data.assignedPatient) {
        UnassignPatientFromRoom(data.assignedPatient.value);
      }
      ghost var unassigned := Snapshot();
      var ids := data.assignedDevices;
      for i := 0 to |ids|
        invariant UnassignDevices(Snapshot(), ids[i..]) == UnassignDevices(unassigned, ids)
      {
        assert ids[i..][1..] == ids[i + 1..];
        UnassignDeviceFromRoom(ids[i]);
      }
      rooms := rooms - {roomId};
      return Done;
    }
  }
}
