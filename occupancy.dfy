/** The occupancy statistics of app/routers/beds.py (`get_bed_occupancy_stats`) and
    app/routers/rooms.py (`get_room_occupancy_stats`): counters kept in the same
    dictionary as the status counts, so a record whose status is itself a counter's
    name ("total", or "by_type"/"by_room" for beds) is miscounted. Each loop is given
    once as written and once with the status test limited to the known statuses. */
module Occupancy {
  import opened Common
  import opened Wards

  /** `occupied / total * 100`, or 0 with nothing to count. */
  function Rate(occupied: nat, total: nat): (r: real)
    requires occupied <= total
    ensures 0.0 <= r <= 100.0
    ensures total == 0 ==> r == 0.0
    ensures occupied == total && total > 0 ==> r == 100.0
  {
    if total > 0 then occupied as real / total as real * 100.0 else 0.0
  }

  // ---------------------------------------------------------------------------
  // Bed statistics
  // ---------------------------------------------------------------------------

  /** The status counters of the `stats` dictionary: "total" starts at the number of
      beds and the others at 0. */
  datatype BedCounters = BedCounters(total: nat, occupied: nat, available: nat, maintenance: nat, cleaning: nat)
  {
    /** `stats[status] += 1` when `status` names one of the counters, "total" included;
        any other status leaves them alone. */
    function Bump(status: string): (c: BedCounters)
      ensures c.total == total + (if status == "total" then 1 else 0)
    {
      if status == "total" then this.(total := total + 1)
      else if status == "occupied" then this.(occupied := occupied + 1)
      else if status == "available" then this.(available := available + 1)
      else if status == "maintenance" then this.(maintenance := maintenance + 1)
      else if status == "cleaning" then this.(cleaning := cleaning + 1)
      else this
    }
  }

  /** One entry of `by_type` or `by_room`: its "total" and its other counters, keyed by
      status ("occupied" and "available" from the start, others as they are met). */
  datatype Group = Group(total: int, byStatus: map<string, int>)

  /** The answer of `get_bed_occupancy_stats`: the top-level counters, the per-type and
      per-room counters with their keys in insertion order, and the occupancy rate. */
  datatype BedStats = BedStats(
    counters: BedCounters,
    byType: map<string, Group>,
    typeOrder: seq<string>,
    byRoom: map<string, Group>,
    roomOrder: seq<string>,
    occupancyRate: real)

  /** How many of the listed beds have this status. */
  function CountStatus(order: seq<string>, beds: map<string, Bed>, status: string): (n: nat)
    ensures n <= |order|
  {
    if order == [] then 0
    else
      var last := order[|order| - 1];
      CountStatus(order[..|order| - 1], beds, status) + (if last in beds && beds[last].status == status then 1 else 0)
  }

  predicate Distinct(keys: seq<string>) {
    forall i, j :: 0 <= i < j < |keys| ==> keys[i] != keys[j]
  }

  /** The "total" counter of one group, 0 when there is none. */
  function GroupTotal(groups: map<string, Group>, key: string): int {
    if key in groups then groups[key].total else 0
  }

  /** The "total" counters of the groups listed in `keys`, added up. */
  function SumTotals(keys: seq<string>, groups: map<string, Group>): int {
    if keys == [] then 0 else SumTotals(keys[..|keys| - 1], groups) + GroupTotal(groups, keys[|keys| - 1])
  }

  /** The keys listed in `keys`. */
  function Elems(keys: seq<string>): set<string> {
    if keys == [] then {} else Elems(keys[..|keys| - 1]) + {keys[|keys| - 1]}
  }

  /** No key is listed twice. */
  predicate Unique(keys: seq<string>) {
    keys == [] || (keys[|keys| - 1] !in Elems(keys[..|keys| - 1]) && Unique(keys[..|keys| - 1]))
  }

  /** Changing a group that is not listed does not change the sum. */
  lemma {:induction false} SumTotalsUnlisted(keys: seq<string>, groups: map<string, Group>, key: string, g: Group)
    requires key !in Elems(keys)
    ensures SumTotals(keys, groups[key := g]) == SumTotals(keys, groups)
  {
    if keys != [] {
      SumTotalsUnlisted(keys[..|keys| - 1], groups, key, g);
    }
  }

  /** Changing a listed group changes the sum by the change of its total. */
  lemma {:induction false} SumTotalsListed(keys: seq<string>, groups: map<string, Group>, key: string, g: Group)
    requires Unique(keys) && key in Elems(keys)
    ensures SumTotals(keys, groups[key := g]) == SumTotals(keys, groups) - GroupTotal(groups, key) + GroupTotal(groups[key := g], key)
  {
    var init := keys[..|keys| - 1];
    if keys[|keys| - 1] == key {
      SumTotalsUnlisted(init, groups, key, g);
    } else {
      SumTotalsListed(init, groups, key, g);
    }
  }

  /** The groups are the keys listed, each listed once, in the order they were made. */
  predicate GroupsListed(groups: map<string, Group>, keys: seq<string>) {
    groups.Keys == Elems(keys) && Unique(keys)
  }

  /** `by_type` or `by_room` with a group for `key`: made on first sight with total,
      occupied and available at 0 and its key listed last. */
  method OpenGroup(groups: map<string, Group>, keys: seq<string>, key: string)
    returns (groups': map<string, Group>, keys': seq<string>)
    requires GroupsListed(groups, keys)
    ensures GroupsListed(groups', keys') && key in groups'
    ensures keys' == if key in groups then keys else keys + [key]
    ensures SumTotals(keys', groups') == SumTotals(keys, groups)
  {
    keys' := keys;
    groups' := groups;
    if key !in groups {
      groups' := groups[key := Group(0, map["occupied" := 0, "available" := 0])];
      keys' := keys + [key];
      SumTotalsUnlisted(keys, groups, key, groups'[key]);
      assert keys'[..|keys'| - 1] == keys;
    }
  }

  /** The counters of one group after a bed of status `status`: "total" goes up by one,
      and the entry named by the status (created at 0) by one more. As written that
      entry may be "total" itself, which then goes up twice; with `guarded` the status
      "total" is not counted again. */
  function CountedEntry(g: Group, status: string, guarded: bool): (r: Group)
    ensures r.total == g.total + (if !guarded && status == "total" then 2 else 1)
  {
    if status == "total" then Group(g.total + (if guarded then 1 else 2), g.byStatus)
    else Group(g.total + 1, g.byStatus[status := (if status in g.byStatus then g.byStatus[status] else 0) + 1])
  }

  /** One bed counted into its group (made on first sight). */
  method CountIntoGroup(groups: map<string, Group>, keys: seq<string>, key: string, status: string, guarded: bool)
    returns (groups': map<string, Group>, keys': seq<string>)
    requires GroupsListed(groups, keys)
    ensures GroupsListed(groups', keys')
    ensures keys' == if key in groups then keys else keys + [key]
    ensures SumTotals(keys', groups') == SumTotals(keys, groups) + (if !guarded && status == "total" then 2 else 1)
  {
    groups', keys' := OpenGroup(groups, keys, key);
    var g := CountedEntry(groups'[key], status, guarded);
    SumTotalsListed(keys', groups', key, g);
    groups' := groups'[key := g];
  }

  /** The top-level counters after the beds listed in `order`, "total" starting at
      `total`: each bed bumps the counter its status names, except that with `guarded`
      the status "total" bumps nothing. */
  function BedTally(total: nat, order: seq<string>, beds: map<string, Bed>, guarded: bool): BedCounters {
    if order == [] then BedCounters(total, 0, 0, 0, 0)
    else
      var c := BedTally(total, order[..|order| - 1], beds, guarded);
      var last := order[|order| - 1];
      if last in beds && (!guarded || beds[last].status != "total") then c.Bump(beds[last].status) else c
  }

  /** The tally of one more bed. */
  lemma BedTallyStep(total: nat, order: seq<string>, i: nat, beds: map<string, Bed>, guarded: bool)
    requires i < |order| && order[i] in beds
    ensures var c := BedTally(total, order[..i], beds, guarded);
      var status := beds[order[i]].status;
      BedTally(total, order[..i + 1], beds, guarded) == if !guarded || status != "total" then c.Bump(status) else c
    ensures AnyUnaddable(order[..i + 1], beds) == (AnyUnaddable(order[..i], beds) || UnaddableStatus(beds[order[i]].status))
  {
    assert order[..i + 1][..i] == order[..i];
  }

  /** Each counter of the tally is the number of beds in that status; "total" is the
      starting value, plus the beds whose status is "total" as written. */
  lemma {:induction false} BedTallyCounts(total: nat, order: seq<string>, beds: map<string, Bed>, guarded: bool)
    ensures var c := BedTally(total, order, beds, guarded);
      && c.total == total + (if guarded then 0 else CountStatus(order, beds, "total"))
      && c.occupied == CountStatus(order, beds, "occupied")
      && c.available == CountStatus(order, beds, "available")
      && c.maintenance == CountStatus(order, beds, "maintenance")
      && c.cleaning == CountStatus(order, beds, "cleaning")
  {
    if order != [] {
      BedTallyCounts(total, order[..|order| - 1], beds, guarded);
    }
  }

  /** The loop of `get_bed_occupancy_stats` over the beds in Firebase order. As written
      (`guarded` false) a status "by_type" or "by_room" makes `stats[status] += 1` fail
      on a dictionary, and the handler answers 500 (here `None`); a status "total" is
      counted into the total. With `guarded` the status "total" is not counted. */
  method TallyBeds(t: Tables, guarded: bool)
    returns (ok: bool, counters: BedCounters, byType: map<string, Group>, typeOrder: seq<string>, byRoom: map<string, Group>, roomOrder: seq<string>)
    requires WellOrdered(t)
    ensures ok <==> guarded || !AnyUnaddable(t.bedOrder, t.beds)
    ensures ok ==> counters == BedTally(|t.bedOrder|, t.bedOrder, t.beds, guarded)
    ensures ok ==> GroupsListed(byType, typeOrder) && SumTotals(typeOrder, byType) == counters.total
    ensures ok ==> GroupsListed(byRoom, roomOrder) && SumTotals(roomOrder, byRoom) == counters.total
  {
    var order := t.bedOrder;
    counters := BedCounters(|order|, 0, 0, 0, 0);
    byType, typeOrder, byRoom, roomOrder := map[], [], map[], [];
    for i := 0 to |order|
      invariant !guarded ==> !AnyUnaddable(order[..i], t.beds)
      invariant counters == BedTally(|order|, order[..i], t.beds, guarded)
      invariant GroupsListed(byType, typeOrder) && SumTotals(typeOrder, byType) + |order| == counters.total + i
      invariant GroupsListed(byRoom, roomOrder) && SumTotals(roomOrder, byRoom) + |order| == counters.total + i
    {
      BedTallyStep(|order|, order, i, t.beds, guarded);
      var bed := t.beds[order[i]];
      var status := bed.status;
      if !guarded && UnaddableStatus(status) {
        AnyUnaddableExtends(order, i + 1, t.beds);
        return false, counters, byType, typeOrder, byRoom, roomOrder;
      }
      if !guarded || status != "total" {
        counters := counters.Bump(status);
      }
      byType, typeOrder := CountIntoGroup(byType, typeOrder, bed.bedType, status, guarded);
      byRoom, roomOrder := CountIntoGroup(byRoom, roomOrder, bed.roomId, status, guarded);
    }
    assert order[..|order|] == order;
    ok := true;
  }

  /** The statuses naming an entry of `stats` that holds a dictionary, not a number. */
  predicate UnaddableStatus(status: string) {
    status == "by_type" || status == "by_room"
  }

  /** Some listed bed has a status naming a dictionary entry of `stats`. */
  predicate AnyUnaddable(order: seq<string>, beds: map<string, Bed>) {
    order != [] && (
      || AnyUnaddable(order[..|order| - 1], beds)
      || (order[|order| - 1] in beds && UnaddableStatus(beds[order[|order| - 1]].status)))
  }

  /** A bed found among the first `n` is found among them all. */
  lemma {:induction false} AnyUnaddableExtends(order: seq<string>, n: nat, beds: map<string, Bed>)
    requires n <= |order| && AnyUnaddable(order[..n], beds)
    ensures AnyUnaddable(order, beds)
  {
    if n < |order| {
      var init := order[..|order| - 1];
      assert init[..n] == order[..n];
      AnyUnaddableExtends(init, n, beds);
    } else {
      assert order[..n] == order;
    }
  }

  /** `AnyUnaddable` holds exactly when one of the listed beds has such a status. */
  lemma {:induction false} AnyUnaddableFinds(order: seq<string>, beds: map<string, Bed>)
    requires forall i :: 0 <= i < |order| ==> order[i] in beds
    ensures AnyUnaddable(order, beds) <==> exists i :: 0 <= i < |order| && UnaddableStatus(beds[order[i]].status)
  {
    if order != [] {
      var init := order[..|order| - 1];
      AnyUnaddableFinds(init, beds);
      if exists i :: 0 <= i < |order| && UnaddableStatus(beds[order[i]].status) {
        var i :| 0 <= i < |order| && UnaddableStatus(beds[order[i]].status);
        if i < |init| {
          assert init[i] == order[i];
        }
      }
      if exists i :: 0 <= i < |init| && UnaddableStatus(beds[init[i]].status) {
        var i :| 0 <= i < |init| && UnaddableStatus(beds[init[i]].status);
        assert order[i] == init[i];
      }
    }
  }

  /** Counting one status and another, distinct one never exceeds the beds listed. */
  lemma {:induction false} CountStatusBounded(order: seq<string>, beds: map<string, Bed>, a: string, b: string)
    requires a != b
    ensures CountStatus(order, beds, a) + CountStatus(order, beds, b) <= |order|
  {
    if order != [] {
      CountStatusBounded(order[..|order| - 1], beds, a, b);
    }
  }

  /** `get_bed_occupancy_stats` as written: 500 when a bed's status is "by_type" or
      "by_room", and otherwise a total that counts the beds whose status is "total" twice,
      which the per-type and per-room totals add up to. */
  method BedOccupancyStatsAsWritten(t: Tables) returns (r: Option<BedStats>)
    requires WellOrdered(t)
    ensures r.None? <==> exists i :: 0 <= i < |t.bedOrder| && UnaddableStatus(t.beds[t.bedOrder[i]].status)
    ensures r.Some? ==> r.value.counters.total == |t.beds| + CountStatus(t.bedOrder, t.beds, "total")
    ensures r.Some? ==> SumTotals(r.value.typeOrder, r.value.byType) == r.value.counters.total
    ensures r.Some? ==> SumTotals(r.value.roomOrder, r.value.byRoom) == r.value.counters.total
    ensures r.Some? ==> 0.0 <= r.value.occupancyRate <= 100.0
  {
    var ok, counters, byType, typeOrder, byRoom, roomOrder := TallyBeds(t, false);
    AnyUnaddableFinds(t.bedOrder, t.beds);
    if !ok {
      return None;
    }
    OrderCountsBeds(t);
    BedTallyCounts(|t.bedOrder|, t.bedOrder, t.beds, false);
    CountStatusBounded(t.bedOrder, t.beds, "occupied", "total");
    var rate := Rate(counters.occupied, counters.total);
    return Some(BedStats(counters, byType, typeOrder, byRoom, roomOrder, rate));
  }

  /** `get_bed_occupancy_stats` with the status "total" not counted a second time: the
      total is the number of beds, each status counter the number of beds in that status,
      the per-type and per-room totals each add up to the total, and the rate lies
      between 0 and 100 and is 0 with no beds. */
  method BedOccupancyStats(t: Tables) returns (s: BedStats)
    requires WellOrdered(t)
    ensures s.counters.total == |t.beds|
    ensures s.counters.occupied == CountStatus(t.bedOrder, t.beds, "occupied")
    ensures s.counters.available == CountStatus(t.bedOrder, t.beds, "available")
    ensures s.counters.maintenance == CountStatus(t.bedOrder, t.beds, "maintenance")
    ensures s.counters.cleaning == CountStatus(t.bedOrder, t.beds, "cleaning")
    ensures SumTotals(s.typeOrder, s.byType) == |t.beds| && SumTotals(s.roomOrder, s.byRoom) == |t.beds|
    ensures 0.0 <= s.occupancyRate <= 100.0 && (|t.beds| == 0 ==> s.occupancyRate == 0.0)
    ensures |t.beds| > 0 ==> s.occupancyRate == s.counters.occupied as real / |t.beds| as real * 100.0
  {
    var _, counters, byType, typeOrder, byRoom, roomOrder := TallyBeds(t, true);
    OrderCountsBeds(t);
    BedTallyCounts(|t.bedOrder|, t.bedOrder, t.beds, true);
    CountStatusBounded(t.bedOrder, t.beds, "occupied", "total");
    var rate := Rate(counters.occupied, counters.total);
    s := BedStats(counters, byType, typeOrder, byRoom, roomOrder, rate);
  }

  /** A well-ordered table lists as many ids as it holds beds. */
  lemma OrderCountsBeds(t: Tables)
    requires WellOrdered(t)
    ensures |t.bedOrder| == |t.beds|
  {
    DistinctCard(t.bedOrder);
    assert (set id | id in t.bedOrder) == t.beds.Keys;
  }

  lemma {:induction false} DistinctCard(keys: seq<string>)
    requires Distinct(keys)
    ensures |set k | k in keys| == |keys|
  {
    if keys != [] {
      var init := keys[..|keys| - 1];
      DistinctCard(init);
      var last := keys[|keys| - 1];
      assert (set k | k in keys) == (set k | k in init) + {last} by {
        forall k | k in keys
          ensures k in init || k == last
        {
          var i :| 0 <= i < |keys| && keys[i] == k;
          if i < |keys| - 1 {
            assert init[i] == k;
          }
        }
      }
      assert last !in (set k | k in init) by {
        forall i | 0 <= i < |init|
          ensures init[i] != last
        {
          assert keys[i] != keys[|keys| - 1];
        }
      }
    }
  }

  /** One bed whose status is "total": as written the total says two beds. */
  lemma BedStatusTotalCountsTwice(t: Tables)
    requires t.bedOrder == ["b"] && t.beds == map["b" := Bed("r", "standard", "total", None)]
    ensures |t.beds| == 1
    ensures |t.beds| + CountStatus(t.bedOrder, t.beds, "total") == 2
  {
    assert t.bedOrder[..0] == [];
  }

  // ---------------------------------------------------------------------------
  // Room statistics
  // ---------------------------------------------------------------------------

  /** The counters of the room `stats` dictionary, all starting at 0. */
  datatype RoomCounters = RoomCounters(total: nat, occupied: nat, available: nat, maintenance: nat, reserved: nat)
  {
    /** `stats[status] += 1` when `status` names one of the counters, "total" included;
        any other status leaves them alone. */
    function Bump(status: string): RoomCounters {
      if status == "total" then this.(total := total + 1)
      else if status == "occupied" then this.(occupied := occupied + 1)
      else if status == "available" then this.(available := available + 1)
      else if status == "maintenance" then this.(maintenance := maintenance + 1)
      else if status == "reserved" then this.(reserved := reserved + 1)
      else this
    }

    /** One room counted: "total" up by one, then `Bump` for its status, which with
        `guarded` skips the status "total". */
    function Counted(status: string, guarded: bool): RoomCounters {
      var c := this.(total := total + 1);
      if !guarded || status != "total" then c.Bump(status) else c
    }
  }

  /** The rooms among `ids` whose status is `status`. */
  function RoomsWithStatus(rooms: map<string, Room>, ids: set<string>, status: string): (r: set<string>)
    ensures r <= ids
  {
    set id | id in ids && id in rooms && rooms[id].data.status == status
  }

  /** The counters after the rooms in `done`, each counter the number of them in its
      status, and "total" the number of them, plus as written those whose status is
      "total". */
  ghost function RoomTally(rooms: map<string, Room>, done: set<string>, guarded: bool): RoomCounters {
    RoomCounters(
      |done| + (if guarded then 0 else |RoomsWithStatus(rooms, done, "total")|),
      |RoomsWithStatus(rooms, done, "occupied")|,
      |RoomsWithStatus(rooms, done, "available")|,
      |RoomsWithStatus(rooms, done, "maintenance")|,
      |RoomsWithStatus(rooms, done, "reserved")|)
  }

  /** The loop of `get_room_occupancy_stats` over the rooms, in whatever order the
      collection hands them back. Every room adds one to "total" and one to the counter
      named by its status, if there is one: as written "total" is such a counter; with
      `guarded` it is not. */
  method TallyRooms(rooms: map<string, Room>, guarded: bool) returns (c: RoomCounters)
    ensures c == RoomTally(rooms, rooms.Keys, guarded)
  {
    c := RoomCounters(0, 0, 0, 0, 0);
    var todo := rooms.Keys;
    RoomTallyEmpty(rooms, guarded);
    assert rooms.Keys - todo == {};
    while todo != {}
      invariant todo <= rooms.Keys
      invariant c == RoomTally(rooms, rooms.Keys - todo, guarded)
      decreases |todo|
    {
      var id :| id in todo;
      var status := rooms[id].data.status;
      RoomTallyGrows(rooms, rooms.Keys - todo, id, guarded);
      assert rooms.Keys - (todo - {id}) == (rooms.Keys - todo) + {id};
      c := c.Counted(status, guarded);
      todo := todo - {id};
    }
  }

  /** No room counted, every counter at 0. */
  lemma RoomTallyEmpty(rooms: map<string, Room>, guarded: bool)
    ensures RoomTally(rooms, {}, guarded) == RoomCounters(0, 0, 0, 0, 0)
  {
    assert forall st :: RoomsWithStatus(rooms, {}, st) == {};
  }

  /** No more rooms are occupied than are counted in all. */
  lemma RoomTallyBounded(rooms: map<string, Room>, guarded: bool)
    ensures RoomTally(rooms, rooms.Keys, guarded).occupied <= RoomTally(rooms, rooms.Keys, guarded).total
  {
    SubsetCard(RoomsWithStatus(rooms, rooms.Keys, "occupied"), rooms.Keys);
  }

  /** Counting one more room: "total" goes up by one, then the counter its status names. */
  lemma RoomTallyGrows(rooms: map<string, Room>, done: set<string>, id: string, guarded: bool)
    requires id in rooms && id !in done
    ensures RoomTally(rooms, done + {id}, guarded) == RoomTally(rooms, done, guarded).Counted(rooms[id].data.status, guarded)
  {
    RoomsWithStatusGrow(rooms, done, id, "total");
    RoomsWithStatusGrow(rooms, done, id, "occupied");
    RoomsWithStatusGrow(rooms, done, id, "available");
    RoomsWithStatusGrow(rooms, done, id, "maintenance");
    RoomsWithStatusGrow(rooms, done, id, "reserved");
  }

  /** Counting one more room adds it to the rooms of its own status only. */
  lemma RoomsWithStatusGrow(rooms: map<string, Room>, done: set<string>, id: string, st: string)
    requires id in rooms && id !in done
    ensures |done + {id}| == |done| + 1
    ensures |RoomsWithStatus(rooms, done + {id}, st)| == |RoomsWithStatus(rooms, done, st)| + (if rooms[id].data.status == st then 1 else 0)
  {
    if rooms[id].data.status == st {
      assert RoomsWithStatus(rooms, done + {id}, st) == RoomsWithStatus(rooms, done, st) + {id};
    } else {
      assert RoomsWithStatus(rooms, done + {id}, st) == RoomsWithStatus(rooms, done, st);
    }
  }

  lemma SubsetCard(a: set<string>, b: set<string>)
    requires a <= b
    ensures |a| <= |b|
  {
    assert b == a + (b - a);
  }

  /** `get_room_occupancy_stats` as written: a room whose status is "total" is counted
      twice toward the total. */
  method RoomOccupancyStatsAsWritten(rooms: map<string, Room>) returns (c: RoomCounters, rate: real)
    ensures c.total == |rooms| + |RoomsWithStatus(rooms, rooms.Keys, "total")|
    ensures c.occupied == |RoomsWithStatus(rooms, rooms.Keys, "occupied")|
    ensures 0.0 <= rate <= 100.0
  {
    c := TallyRooms(rooms, false);
    RoomTallyBounded(rooms, false);
    rate := Rate(c.occupied, c.total);
  }

  /** `get_room_occupancy_stats` with the status "total" not counted a second time: the
      total is the number of rooms, each status counter the number of rooms in that
      status, a status outside the four counts toward the total only, and the rate lies
      between 0 and 100 and is 0 with no rooms. */
  method RoomOccupancyStats(rooms: map<string, Room>) returns (c: RoomCounters, rate: real)
    ensures c.total == |rooms|
    ensures c.occupied == |RoomsWithStatus(rooms, rooms.Keys, "occupied")|
    ensures c.available == |RoomsWithStatus(rooms, rooms.Keys, "available")|
    ensures c.maintenance == |RoomsWithStatus(rooms, rooms.Keys, "maintenance")|
    ensures c.reserved == |RoomsWithStatus(rooms, rooms.Keys, "reserved")|
    ensures 0.0 <= rate <= 100.0 && (|rooms| == 0 ==> rate == 0.0)
    ensures |rooms| > 0 ==> rate == c.occupied as real / |rooms| as real * 100.0
  {
    c := TallyRooms(rooms, true);
    RoomTallyBounded(rooms, true);
    rate := Rate(c.occupied, c.total);
  }

  /** One room whose status is "total": as written the total is 2 for a single room. */
  lemma RoomStatusTotalCountsTwice(room: Room)
    requires room.data.status == "total"
    ensures var rooms := map["r" := room];
      |rooms| == 1 && |rooms| + |RoomsWithStatus(rooms, rooms.Keys, "total")| == 2
  {
    var rooms := map["r" := room];
    assert RoomsWithStatus(rooms, rooms.Keys, "total") == {"r"};
  }
}
