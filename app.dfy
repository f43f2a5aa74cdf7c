/** The outbound command a toggle builds: `{command, id}`. */
module Commands {
  datatype Verb = Connect | Disconnect
  datatype Message = Message(command: Verb, id: string)

  /**
    The command for a card whose `connected` flag reads `connected`: it
    names the same sensor, and asks to disconnect exactly when the sensor
    shows as connected.
  */
  function CommandFor(id: string, connected: bool): (m: Message)
    ensures m.id == id
    ensures m.command == Disconnect <==> connected
    ensures m.command == Connect <==> !connected
  {
    Message(if connected then Disconnect else Connect, id)
  }
}

/**
  The dashboard component of App.tsx: the sensor map, the "connected only"
  flag and the push socket, with the handlers that change them.
*/
module Dashboard {
  import opened Options
  import opened Records
  import opened OrderedMaps
  import opened SensorRegistry
  import opened Projection
  import opened Commands
  import opened Lists

  /** `WebSocket.readyState`. */
  datatype ReadyState = Connecting | Open | Closing | Closed

  /** The push socket, seen from the client: its state and the messages it has sent. */
  class Socket {
    var readyState: ReadyState
    var sent: seq<Message>

    constructor (state: ReadyState)
      ensures readyState == state && sent == []
    {
      readyState := state;
      sent := [];
    }

    /** `socket.send(JSON.stringify(message))`, on an open socket. */
    method Send(message: Message)
      requires readyState == Open
      modifies this`sent
      ensures sent == old(sent) + [message]
    {
      sent := sent + [message];
    }
  }

  class App {
    var showConnectedOnly: bool
    /** The sensor map: its keys in insertion order, and the record under each. */
    var keys: seq<string>
    var entries: map<string, SensorRecord>
    /** `null` until the mount effect has stored the socket it opened. */
    var socket: Socket?

    /** The sensor map as a value. */
    function Sensors(): Registry
      reads this
    {
      OrderedMap(keys, entries)
    }

    ghost predicate Valid()
      reads this
    {
      OrderedMaps.Valid(Sensors()) && IdsMatchKeys(Sensors())
    }

    /** The first render: no sensors, filter off, and the socket the mount effect opens. */
    constructor (socket: Socket?)
      ensures Valid()
      ensures Sensors() == EmptyMap() && !showConnectedOnly && this.socket == socket
    {
      showConnectedOnly := false;
      keys, entries := [], map[];
      this.socket := socket;
    }

    /** `setSensors(new Map(sensors).set(id, record))`, as one atomic step. */
    method Store(id: string, record: SensorRecord)
      requires Valid()
      requires record.id == Some(id) || record.id == None
      modifies this`keys, this`entries
      ensures Valid()
      ensures Sensors() == Set(old(Sensors()), id, record)
    {
      if id !in entries {
        keys := keys + [id];
      }
      entries := entries[id := record];
    }

    /** `updateSensorData`: overlay the inbound record on the one stored under its id. */
    method UpdateSensorData(data: SensorRecord)
      requires Valid() && data.id.Some?
      modifies this`keys, this`entries
      ensures Valid()
      ensures Sensors() == Merge(old(Sensors()), data)
    {
      var id := data.id.value;
      var record := Spread(OrNoProps(Get(Sensors(), id)), data);
      Store(id, record);
    }

    /**
      `toggleSensorConnection`: send the command when the socket is open,
      silently skip it otherwise, and store `connected: !connected` under
      `id` in either case.
    */
    method ToggleSensorConnection(id: string, connected: bool)
      requires Valid()
      modifies this`keys, this`entries, socket
      ensures Valid()
      ensures socket == old(socket) && showConnectedOnly == old(showConnectedOnly)
      ensures socket != null ==> socket.readyState == old(socket.readyState)
      ensures socket != null ==>
                socket.sent == old(socket.sent) + if old(socket.readyState) == Open then [CommandFor(id, connected)] else []
      ensures Sensors() == Toggle(old(Sensors()), id, connected)
    {
      var message := CommandFor(id, connected);
      if socket != null && socket.readyState == Open {
        socket.Send(message);
      }
      var updated := Toggled(Get(Sensors(), id), connected);
      Store(id, updated);
    }

    /** `toggleShowConnected`: flip the filter; flipping twice restores it. */
    method ToggleShowConnected()
      modifies this`showConnectedOnly
      ensures showConnectedOnly == !old(showConnectedOnly)
    {
      showConnectedOnly := !showConnectedOnly;
    }

    /**
      `filteredSensors`: every sensor in map order when the filter is off;
      when it is on and every record carries its key as id, exactly the
      connected sensors in map order.
    */
    function FilteredSensors(): (shown: seq<SensorRecord>)
      requires Valid()
      reads this
      ensures !showConnectedOnly ==> shown == Values(Sensors())
      ensures showConnectedOnly && WellKeyed(Sensors()) ==> shown == Filter(Values(Sensors()), IsConnected)
    {
      ProjectRegistry(Sensors());
      Project(Values(Sensors()), showConnectedOnly)
    }
  }
}
