/** The reservation monitor: two inverse maps, a published snapshot, and database writes that
    come before publication.  Every method is one critical section of the Java object; the
    outcome of a database write is the parameter `committed`. */
module PortMapping {
  import opened Wrappers
  import opened Reservations

  datatype Snapshot = Snapshot(mappings: map<Port, Reservation>, devicePorts: map<Device, Port>)

  /** The cache seen by device. */
  ghost function ByDevice(mappings: map<Port, Reservation>, devicePorts: map<Device, Port>): (t: Table) {
    map d | d in devicePorts && devicePorts[d] in mappings :: mappings[devicePorts[d]]
  }

  /** Port-to-mapping and device-to-port are mutually inverse. */
  ghost predicate Inverse(mappings: map<Port, Reservation>, devicePorts: map<Device, Port>) {
    && (forall p | p in mappings ::
          && mappings[p].externalPort == p
          && mappings[p].deviceId in devicePorts
          && devicePorts[mappings[p].deviceId] == p)
    && (forall d | d in devicePorts ::
          && devicePorts[d] in mappings
          && mappings[devicePorts[d]].deviceId == d
          && mappings[devicePorts[d]].externalPort == devicePorts[d])
  }

  lemma InverseGivesTable(mappings: map<Port, Reservation>, devicePorts: map<Device, Port>)
    requires Inverse(mappings, devicePorts)
    ensures Keyed(ByDevice(mappings, devicePorts)) && UniquePorts(ByDevice(mappings, devicePorts))
    ensures forall p :: p in mappings <==> Reserved(ByDevice(mappings, devicePorts), p)
  {
    var t := ByDevice(mappings, devicePorts);
    forall p
      ensures p in mappings <==> Reserved(t, p)
    {
      if p in mappings {
        assert mappings[p].deviceId in t;
        assert t[mappings[p].deviceId].externalPort == p;
      }
    }
  }

  /** The cache after publishing `rows` one by one, all offline. */
  ghost function LoadedRows(rows: seq<Reservation>): Table {
    if rows == [] then map[]
    else
      var last := rows[|rows| - 1];
      LoadedRows(rows[..|rows| - 1])[last.deviceId := last.(online := false)]
  }

  ghost predicate DistinctDevices(rows: seq<Reservation>) {
    forall i, j | 0 <= i < j < |rows| :: rows[i].deviceId != rows[j].deviceId
  }

  lemma {:induction false} LoadedRowsAre(rows: seq<Reservation>)
    requires DistinctDevices(rows)
    ensures forall i | 0 <= i < |rows| ::
              rows[i].deviceId in LoadedRows(rows) && LoadedRows(rows)[rows[i].deviceId] == rows[i].(online := false)
    ensures forall d | d in LoadedRows(rows) :: exists i :: 0 <= i < |rows| && rows[i].deviceId == d
  {
    if rows == [] {
    } else {
      var front := rows[..|rows| - 1];
      LoadedRowsAre(front);
      forall d | d in LoadedRows(rows)
        ensures exists i :: 0 <= i < |rows| && rows[i].deviceId == d
      {
        if d in LoadedRows(front) {
          var i :| 0 <= i < |front| && front[i].deviceId == d;
          assert rows[i].deviceId == d;
        } else {
          assert rows[|rows| - 1].deviceId == d;
        }
      }
    }
  }

  lemma LoadedRowsStep(rows: seq<Reservation>, i: nat)
    requires i < |rows|
    ensures LoadedRows(rows[..i + 1]) == LoadedRows(rows[..i])[rows[i].deviceId := rows[i].(online := false)]
  {
    assert rows[..i + 1][..i] == rows[..i];
  }

  /** `rows` lists the table, once each, as `findAll` does. */
  ghost predicate Lists(repository: Table, rows: seq<Reservation>) {
    && Keyed(repository)
    && DistinctDevices(rows)
    && forall r :: r in rows <==> r.deviceId in repository && repository[r.deviceId] == r
  }

  lemma SharedPort(repository: Table, rows: seq<Reservation>, i: nat)
    requires Lists(repository, rows) && i < |rows|
    requires Reserved(LoadedRows(rows[..i]), rows[i].externalPort)
    ensures !UniquePorts(repository)
  {
    LoadedRowsAre(rows[..i]);
    var t := LoadedRows(rows[..i]);
    var d :| d in t && t[d].externalPort == rows[i].externalPort;
    var j :| 0 <= j < i && rows[..i][j].deviceId == d;
    assert rows[j] in rows && rows[i] in rows;
    assert repository[d] == rows[j] && repository[rows[i].deviceId] == rows[i];
  }

  lemma AllRowsLoaded(repository: Table, rows: seq<Reservation>)
    requires Lists(repository, rows) && UniquePorts(LoadedRows(rows))
    ensures LoadedRows(rows) == Loaded(repository) && UniquePorts(repository)
    ensures Refines(Store(LoadedRows(rows), repository))
  {
    LoadedRowsAre(rows);
    var t := LoadedRows(rows);
    forall d | d in repository
      ensures d in t && t[d] == repository[d].(online := false)
    {
      assert repository[d] in rows;
    }
    forall d | d in t
      ensures d in repository
    {
      var i :| 0 <= i < |rows| && rows[i].deviceId == d;
      assert rows[i] in rows;
    }
    assert forall d | d in repository :: t[d].externalPort == repository[d].externalPort;
  }

  lemma PublishedMaps(mappings: map<Port, Reservation>, devicePorts: map<Device, Port>, row: Reservation)
    requires Inverse(mappings, devicePorts)
    requires row.externalPort in mappings ==> mappings[row.externalPort].deviceId == row.deviceId
    ensures var kept := if row.deviceId in devicePorts && devicePorts[row.deviceId] != row.externalPort
                        then mappings - {devicePorts[row.deviceId]} else mappings;
            var (ms, ds) := (kept[row.externalPort := row], devicePorts[row.deviceId := row.externalPort]);
            Inverse(ms, ds) && ByDevice(ms, ds) == ByDevice(mappings, devicePorts)[row.deviceId := row]
  {
  }

  class PortMappingService {
    const range: Range
    var mappings: map<Port, Reservation>
    var devicePorts: map<Device, Port>
    var snapshot: Snapshot
    var repository: Table

    /** Holds at every release of the monitor: inverse maps, a snapshot equal to them, and a
        cache that refines the database. */
    ghost predicate Valid()
      reads this
    {
      && Inverse(mappings, devicePorts)
      && snapshot == Snapshot(mappings, devicePorts)
      && Refines(View())
    }

    ghost function View(): Store
      reads this
    {
      Store(ByDevice(mappings, devicePorts), repository)
    }

    constructor (range: Range, repository: Table)
      requires Keyed(repository)
      ensures this.range == range && this.repository == repository
      ensures mappings == map[] && devicePorts == map[]
      ensures snapshot == Snapshot(map[], map[])
    {
      this.range := range;
      this.repository := repository;
      mappings, devicePorts := map[], map[];
      snapshot := Snapshot(map[], map[]);
    }

    /** Start-up load of the rows `findAll` returned, in any order.  It succeeds exactly when the
        range is sane and no two rows share a port; until then nothing is served. */
    method LoadPersistedMappings(rows: seq<Reservation>) returns (loaded: bool)
      requires Lists(repository, rows)
      modifies this`mappings, this`devicePorts, this`snapshot
      ensures loaded <==> 1 <= range.lo <= range.hi <= 65535 && UniquePorts(repository)
      ensures loaded ==> Valid() && View() == Reload(old(View()))
    {
      if range.lo < 1 || range.hi > 65535 || range.lo > range.hi { return false; }
      mappings, devicePorts := map[], map[];
      snapshot := Snapshot(mappings, devicePorts);
      for i := 0 to |rows|
        invariant Inverse(mappings, devicePorts)
        invariant snapshot == Snapshot(mappings, devicePorts)
        invariant ByDevice(mappings, devicePorts) == LoadedRows(rows[..i])
      {
        var row := rows[i];
        InverseGivesTable(mappings, devicePorts);
        if row.externalPort in mappings {
          SharedPort(repository, rows, i);
          return false;
        }
        LoadedRowsStep(rows, i);
        Publish(row.(online := false));
      }
      assert rows[..|rows|] == rows;
      InverseGivesTable(mappings, devicePorts);
      AllRowsLoaded(repository, rows);
      return true;
    }

    /** Puts a row into both maps, dropping the port the device had before. */
    method Publish(row: Reservation)
      requires Inverse(mappings, devicePorts)
      requires row.externalPort in mappings ==> mappings[row.externalPort].deviceId == row.deviceId
      modifies this`mappings, this`devicePorts, this`snapshot
      ensures Inverse(mappings, devicePorts) && snapshot == Snapshot(mappings, devicePorts)
      ensures ByDevice(mappings, devicePorts) == old(ByDevice(mappings, devicePorts))[row.deviceId := row]
      ensures devicePorts == old(devicePorts)[row.deviceId := row.externalPort]
      ensures mappings.Keys == old(mappings.Keys)
                               - (if row.deviceId in old(devicePorts) then {old(devicePorts)[row.deviceId]} else {})
                               + {row.externalPort}
    {
      hide Inverse; hide ByDevice;
      PublishedMaps(mappings, devicePorts, row);
      var before: Option<Port> := if row.deviceId in devicePorts then Some(devicePorts[row.deviceId]) else None;
      devicePorts := devicePorts[row.deviceId := row.externalPort];
      if before.Some? && before.value != row.externalPort {
        mappings := mappings - {before.value};
      }
      mappings := mappings[row.externalPort := row];
      snapshot := Snapshot(mappings, devicePorts);
    }

    /** Database first; a write that throws leaves cache and database alone. */
    method SaveRow(row: Reservation, committed: bool)
      requires Valid()
      requires row.externalPort in mappings ==> mappings[row.externalPort].deviceId == row.deviceId
      modifies this
      ensures Valid() && View() == Save(old(View()), row, committed)
    {
      if !committed { return; }
      repository := repository[row.deviceId := row];
      Publish(row);
    }

    method AllocatePort(d: Device, target: int, committed: bool) returns (reply: Reply)
      requires Valid()
      modifies this
      ensures Valid()
      ensures (View(), reply) == Allocate(range, old(View()), d, target, committed)
    {
      if !ValidTarget(target) { return InvalidArgument; }
      if d in devicePorts { return Granted(devicePorts[d]); }
      InverseGivesTable(mappings, devicePorts);
      var port := range.lo;
      while port <= range.hi
        invariant range.lo <= port
        invariant View() == old(View()) && Valid()
        invariant LowestFree(View().cache, range.lo, range.hi) == LowestFree(View().cache, port, range.hi)
        decreases range.hi - port
      {
        if port !in mappings {
          SaveRow(Reservation(d, port, target, false), committed);
          return if committed then Granted(port) else WriteFailed;
        }
        port := port + 1;
      }
      return Exhausted;
    }

    method MarkDeviceOnline(d: Device, target: int, committed: bool) returns (reply: Reply)
      requires Valid()
      modifies this
      ensures Valid()
      ensures (View(), reply) == MarkOnline(old(View()), d, target, committed)
    {
      if !ValidTarget(target) { return InvalidArgument; }
      if d !in devicePorts { return Absent; }
      var row := mappings[devicePorts[d]].(online := true, targetPort := target);
      SaveRow(row, committed);
      return if committed then Done else WriteFailed;
    }

    method MarkDeviceOffline(d: Device)
      requires Valid()
      modifies this`mappings, this`devicePorts, this`snapshot
      ensures Valid()
      ensures View() == MarkOffline(old(View()), d)
    {
      if d in devicePorts {
        Publish(mappings[devicePorts[d]].(online := false));
      }
    }

    method UpdatePort(d: Device, newPort: Port, committed: bool) returns (reply: Reply)
      requires Valid()
      modifies this
      ensures Valid()
      ensures (View(), reply) == UpdateExternalPort(range, old(View()), d, newPort, committed)
    {
      InverseGivesTable(mappings, devicePorts);
      if !range.Contains(newPort) { return InvalidArgument; }
      if d !in devicePorts { return Absent; }
      var row := mappings[devicePorts[d]];
      var oldPort := row.externalPort;
      if oldPort == newPort { return Granted(oldPort); }
      var owner := GetDeviceByPort(newPort);
      if owner.Some? { return AlreadyReserved; }
      SaveRow(row.(externalPort := newPort), committed);
      return if committed then Granted(oldPort) else WriteFailed;
    }

    method PresetPort(d: Device, port: Port, target: int, committed: bool) returns (reply: Reply)
      requires Valid()
      modifies this
      ensures Valid()
      ensures (View(), reply) == SetFixedPort(range, old(View()), d, port, target, committed)
    {
      InverseGivesTable(mappings, devicePorts);
      if !range.Contains(port) || !ValidTarget(target) { return InvalidArgument; }
      if d in devicePorts { return AlreadyReserved; }
      if port in mappings { return AlreadyReserved; }
      SaveRow(Reservation(d, port, target, false), committed);
      return if committed then Done else WriteFailed;
    }

    method ReleasePort(d: Device, committed: bool) returns (reply: Reply)
      requires Valid()
      modifies this
      ensures Valid()
      ensures (View(), reply) == Release(old(View()), d, committed)
    {
      if d !in devicePorts { return Done; }
      var port := devicePorts[d];
      if !committed { return WriteFailed; }
      repository := repository - {d};
      devicePorts := devicePorts - {d};
      mappings := mappings - {port};
      snapshot := Snapshot(mappings, devicePorts);
      assert forall e | e in devicePorts :: devicePorts[e] != port;
      assert ByDevice(mappings, devicePorts) == old(ByDevice(mappings, devicePorts)) - {d};
      return Done;
    }

    /** Lock-free reads answer from the published snapshot. */
    method GetPortByDevice(d: Device) returns (port: Option<Port>)
      requires Valid()
      ensures port == if d in View().cache then Some(View().cache[d].externalPort) else None
    {
      return if d in snapshot.devicePorts then Some(snapshot.devicePorts[d]) else None;
    }

    method GetDeviceByPort(port: Port) returns (owner: Option<Device>)
      requires Valid()
      ensures owner.None? <==> !Reserved(View().cache, port)
      ensures owner.Some? ==> owner.value in View().cache && View().cache[owner.value].externalPort == port
    {
      InverseGivesTable(mappings, devicePorts);
      return if port in snapshot.mappings then Some(snapshot.mappings[port].deviceId) else None;
    }
  }
}
