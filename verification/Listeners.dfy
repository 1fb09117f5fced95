/** Data port listeners: three tables by port (server channel, owner, external connections).
    The device lifecycle only sees which device owns each live listener; the connection table
    adds that nothing accepted by an earlier listener of the port is ever admitted. */
module Listeners {
  import opened Wrappers
  import opened Reservations
  import opened Sessions

  /** Owner of every live listener. */
  type Owners = map<Port, Device>

  /** A port already listened on is reused by its owner and refused to anybody else. */
  function StartPort(owners: Owners, p: Port, d: Device, bound: bool): (Owners, bool) {
    if p in owners then (owners, owners[p] == d)
    else if bound then (owners[p := d], true)
    else (owners, false)
  }

  /** Only the owner can stop a listener. */
  function StopPort(owners: Owners, p: Port, d: Device): Owners {
    if p in owners && owners[p] == d then owners - {p} else owners
  }

  function PortsOf(owners: Owners, d: Device): (ps: set<Port>)
    ensures forall p :: p in ps <==> p in owners && owners[p] == d
  {
    set p | p in owners && owners[p] == d
  }

  /** Starting or stopping on behalf of `d` never changes what another device listens on. */
  lemma OthersKeepListeners(owners: Owners, p: Port, d: Device, bound: bool, e: Device)
    requires e != d
    ensures PortsOf(StartPort(owners, p, d, bound).0, e) == PortsOf(owners, e)
    ensures PortsOf(StopPort(owners, p, d), e) == PortsOf(owners, e)
  {
  }

  /** An accepted external connection; `parent` is the server channel that accepted it. */
  datatype External = External(id: int, parent: int)

  /** The tables have the same keys, server channels are never shared, and every registered
      connection was accepted by the listener its port has now. */
  ghost predicate TablesOk(channels: map<Port, int>, owners: map<Port, Device>,
      connections: map<Port, map<External, Channel>>) {
    && channels.Keys == owners.Keys == connections.Keys
    && (forall p, q | p in channels && q in channels && channels[p] == channels[q] :: p == q)
    && (forall p, x | p in connections && x in connections[p] :: x.parent == channels[p])
  }

  /** The owners of the ports whose server channel is still open. */
  ghost function Live(channels: map<Port, int>, owners: map<Port, Device>, inactive: set<int>): Owners
    requires channels.Keys == owners.Keys
  {
    map p | p in channels && channels[p] !in inactive :: owners[p]
  }

  lemma BindKeepsTables(channels: map<Port, int>, owners: map<Port, Device>,
      connections: map<Port, map<External, Channel>>,
      inactive: set<int>, p: Port, d: Device, bound: int)
    requires TablesOk(channels, owners, connections) && bound !in inactive && bound !in channels.Values
    ensures TablesOk(channels[p := bound], owners[p := d], connections[p := map[]])
    ensures Live(channels[p := bound], owners[p := d], inactive) == Live(channels, owners, inactive)[p := d]
  {
    assert forall q | q in channels :: channels[q] in channels.Values;
  }

  lemma CloseKeepsTables(channels: map<Port, int>, owners: map<Port, Device>,
      connections: map<Port, map<External, Channel>>,
      inactive: set<int>, p: Port)
    requires TablesOk(channels, owners, connections)
    ensures TablesOk(channels - {p}, owners - {p}, connections - {p})
    ensures var closed := if p in channels then inactive + {channels[p]} else inactive;
      Live(channels - {p}, owners - {p}, closed) == Live(channels, owners, inactive) - {p}
  {
    if p in channels { assert forall q | q in channels && q != p :: channels[q] != channels[p]; }
    var closed := if p in channels then inactive + {channels[p]} else inactive;
    var (after, before) := (Live(channels - {p}, owners - {p}, closed), Live(channels, owners, inactive) - {p});
    assert forall q :: q in after <==> q in before;
  }

  class DataPortService {
    var dataPortChannels: map<Port, int>
    var portOwners: map<Port, Device>
    var portConnectionMap: map<Port, map<External, Channel>>
    var inactive: set<int>  // server channels closed so far

    ghost predicate Valid()
      reads this
    {
      TablesOk(dataPortChannels, portOwners, portConnectionMap)
    }

    ghost function View(): Owners
      reads this
      requires Valid()
    {
      Live(dataPortChannels, portOwners, inactive)
    }

    /** The listener a connection sits on, if it is registered at all. */
    ghost predicate Registered(x: External)
      reads this
    {
      exists p :: p in portConnectionMap && x in portConnectionMap[p]
    }

    constructor ()
      ensures Valid() && View() == map[] && inactive == {}
    {
      dataPortChannels, portOwners, portConnectionMap := map[], map[], map[];
      inactive := {};
    }

    /** `bind` is the new server channel, or None when the bind fails. */
    method StartDataPort(p: Port, d: Device, bind: Option<int>) returns (started: bool)
      requires Valid()
      requires bind.Some? ==> bind.value !in inactive && bind.value !in dataPortChannels.Values
      modifies this`dataPortChannels, this`portOwners, this`portConnectionMap
      ensures Valid()
      ensures (View(), started) == StartPort(old(View()), p, d, bind.Some?)
      ensures var bound := p !in old(View()) && bind.Some?;
        && portConnectionMap == (if bound then old(portConnectionMap)[p := map[]] else old(portConnectionMap))
        && dataPortChannels == (if bound then old(dataPortChannels)[p := bind.value] else old(dataPortChannels))
        && portOwners == (if bound then old(portOwners)[p := d] else old(portOwners))
    {
      if p in dataPortChannels && dataPortChannels[p] !in inactive {
        return d == portOwners[p];
      }
      if bind.None? { return false; }
      BindKeepsTables(dataPortChannels, portOwners, portConnectionMap, inactive, p, d, bind.value);
      dataPortChannels := dataPortChannels[p := bind.value];
      portOwners := portOwners[p := d];
      portConnectionMap := portConnectionMap[p := map[]];
      return true;
    }

    method IsPortActive(p: Port) returns (active: bool)
      requires Valid()
      ensures active <==> p in View()
    {
      return p in dataPortChannels && dataPortChannels[p] !in inactive;
    }

    method StopAny(p: Port) returns (closed: set<External>)
      requires Valid()
      modifies this
      ensures Valid()
      ensures p !in dataPortChannels && View() == old(View()) - {p}
      ensures inactive == old(inactive) + (if p in old(dataPortChannels) then {old(dataPortChannels)[p]} else {})
      ensures closed == if p in old(portConnectionMap) then old(portConnectionMap)[p].Keys else {}
      ensures forall x | x in closed :: !Registered(x)
      ensures portConnectionMap == old(portConnectionMap) - {p}
    {
      CloseKeepsTables(dataPortChannels, portOwners, portConnectionMap, inactive, p);
      if p in dataPortChannels {
        inactive := inactive + {dataPortChannels[p]};
        dataPortChannels := dataPortChannels - {p};
        closed := portConnectionMap[p].Keys;
      } else {
        closed := {};
      }
      portConnectionMap := portConnectionMap - {p};
      portOwners := portOwners - {p};
      assert forall x | x in closed :: x.parent == old(dataPortChannels)[p];
    }

    method StopDataPort(p: Port, d: Device) returns (closed: set<External>)
      requires Valid()
      modifies this
      ensures Valid()
      ensures View() == StopPort(old(View()), p, d)
      ensures p in old(portOwners) && old(portOwners)[p] == d ==>
            p !in portOwners && closed == old(portConnectionMap)[p].Keys
      ensures !(p in old(portOwners) && old(portOwners)[p] == d) ==>
                closed == {} && portConnectionMap == old(portConnectionMap) && inactive == old(inactive)
    {
      closed := {};
      if p in portOwners && portOwners[p] == d {
        closed := StopAny(p);
      }
    }

    /** Drops every connection of the port but keeps it listening. */
    method CloseConnections(p: Port) returns (closed: set<External>)
      requires Valid()
      modifies this`portConnectionMap
      ensures Valid() && View() == old(View())
      ensures closed == if p in old(portConnectionMap) then old(portConnectionMap)[p].Keys else {}
      ensures portConnectionMap == if p in old(portConnectionMap)
            then old(portConnectionMap)[p := map[]] else old(portConnectionMap)
    {
      closed := {};
      if p in portConnectionMap {
        closed := portConnectionMap[p].Keys;
        portConnectionMap := portConnectionMap[p := map[]];
      }
    }

    /** Admits a connection exactly when the listener that accepted it is still the port's live
        listener; otherwise the caller must close it. */
    method RegisterConnection(p: Port, x: External, client: Channel) returns (admitted: bool)
      requires Valid()
      modifies this`portConnectionMap
      ensures Valid() && View() == old(View())
      ensures admitted <==> p in dataPortChannels && x.parent == dataPortChannels[p] && x.parent !in inactive
      ensures portConnectionMap == if admitted then old(portConnectionMap)[p := old(portConnectionMap)[p][x := client]]
                                   else old(portConnectionMap)
    {
      admitted := p in dataPortChannels && x.parent == dataPortChannels[p] && dataPortChannels[p] !in inactive;
      if admitted {
        portConnectionMap := portConnectionMap[p := portConnectionMap[p][x := client]];
      }
    }

    method RemoveConnection(p: Port, x: External)
      requires Valid()
      modifies this`portConnectionMap
      ensures Valid() && View() == old(View())
      ensures portConnectionMap == if p in old(portConnectionMap)
            then old(portConnectionMap)[p := old(portConnectionMap)[p] - {x}]
                                   else old(portConnectionMap)
    {
      if p in portConnectionMap {
        portConnectionMap := portConnectionMap[p := portConnectionMap[p] - {x}];
      }
    }
  }
}
