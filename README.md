# IoT sensors dashboard: client-side sensor state

This project models the client of an IoT sensors dashboard. The browser
component in `client/src/App.tsx` keeps a `Map` from sensor id to the latest
known sensor record. It keeps that map up to date in three ways:

- it overlays every partial record pushed over the WebSocket onto the
  record stored under the same id (`updateSensorData`);
- when the operator presses a card's button, it sends a `connect` or
  `disconnect` command if the socket is open, and optimistically stores the
  flipped `connected` flag (`toggleSensorConnection`);
- it derives the list of cards to show from the map and a "connected only"
  flag (`toggleShowConnected`, `connectedSensors`, `filteredSensors`).

Modules:

- `Options`, `Records` (records.dfy): the `SensorModal` record, with every
  property optional, because records are built by spreading partial
  updates. `Property` views a record as a JavaScript object. `Spread` is the
  object spread `{...base, ...top}`.
- `Lists` (lists.dfy): `Array.prototype.filter` on sequences, with its
  order-preserving behaviour on concatenations.
- `OrderedMaps` (ordered_map.dfy): the value of a JavaScript `Map` with its
  key order, plus `get`, `set` and `values()`.
- `SensorRegistry` (registry.dfy): the merge and toggle updates of the map,
  as functions, with their lemmas. `MergeAllOverlays` is stated against a
  reference definition: `AddressedTo` selects, in order, the updates of a
  stream that carry a given id (a `Filter`), and `OverlayAll` spreads them
  one after the other onto a starting record.
- `Projection` (projection.dfy): the shown list, written as the source
  writes it. It filters by membership of the record's id in the set of ids
  of connected records.
- `Commands`, `Dashboard` (app.dfy): the outbound command, the socket (a
  ready state plus the messages sent), and the `App` component as a class.
  The class holds the map's keys and entries, the filter flag and the
  socket. Its handlers are proved against the functions above.

Three behaviours of the code, each modelled as written:

- The toggle takes its verb from the `connected` flag passed in by the card.
  It does not re-read the stored record.
- A command while the socket is not open is dropped silently. No failure is
  reported.
- The connected-only view keeps the records whose id is among the ids of
  connected records, not the records that are themselves connected.
  `ProjectShowsConnected` proves the two agree whenever no two records share
  an id. Every record created by a merge carries its key as its id, so this
  holds in that case. `IdlessRecordsShownTogether` shows where they differ:
  toggling an id that is not in the map stores a record with no `id`
  property, and all such records share the id `undefined`.

## Model

| member | source | states |
|---|---|---|
| `Records.Spread` | client/src/App.tsx:51 | each property the top object has comes from it, every other property from the base object |
| `Records.SpreadIdempotent` | client/src/App.tsx:51 | spreading the same object onto the result again changes nothing |
| `Records.IsConnected` | client/src/App.tsx:75 | a record reads as connected exactly when its `connected` property is present and `true` (JavaScript truthiness of a boolean or missing flag) |
| `Records.OrNoProps` | client/src/App.tsx:51 | spreading a missing entry (`undefined`) contributes no properties |
| `OrderedMaps.EmptyMap` | client/src/App.tsx:32 | the map starts empty and well formed |
| `OrderedMaps.Get` | client/src/App.tsx:51 | `get` finds a value exactly for the keys in the map's key order, and that value is the stored entry; otherwise `undefined` |
| `OrderedMaps.Set` | client/src/App.tsx:51 | `set` makes the entry for the key the new value and leaves other entries unchanged; the key set becomes old ∪ {key}; an existing key keeps its place, a new key is appended; keys stay duplicate-free |
| `OrderedMaps.Values` | client/src/App.tsx:75-76 | `Array.from(map.values())` lists one value per key, in key order |
| `OrderedMaps.SetKeepsPosition` | client/src/App.tsx:51 | setting a present key replaces its value in place in the value list |
| `OrderedMaps.SetAppends` | client/src/App.tsx:51 | setting a new key appends its value at the end of the value list |
| `SensorRegistry.Merge` | client/src/App.tsx:50-52 | a merge keeps the map well formed, and keeps every record carrying its own key (or no id) as id |
| `SensorRegistry.MergeOverlays` | client/src/App.tsx:51 | after a merge, every property the update has equals the update's value; every absent one keeps the previous value, or stays unset for a new id |
| `SensorRegistry.MergeTouchesOnlyItsEntry` | client/src/App.tsx:51 | a merge changes only the entry for the update's id; the key set becomes old ∪ {id} |
| `SensorRegistry.MergeIdempotent` | client/src/App.tsx:51 | merging the same update twice gives the same registry as merging it once |
| `SensorRegistry.MergeKeepsOrder` | client/src/App.tsx:51 | merging an existing id leaves the key order unchanged and replaces the value in that id's own slot; a new id is appended to the keys and its record to the end of the values |
| `SensorRegistry.MergeAll` | client/src/App.tsx:40-43 | merging a stream of updates in arrival order grows the key set by exactly the ids the stream carries |
| `SensorRegistry.MergeAllOverlays` | client/src/App.tsx:51 | after any sequence of merges, a sensor's record is the in-order overlay of the updates addressed to it onto its earlier record; a sensor never addressed and never stored stays absent |
| `SensorRegistry.MergeSequenceExample` | client/src/App.tsx:51 | merging {connected, unit "C", value "5"} and then {value "7"} for `s1` gives connected, unit "C", value "7" |
| `SensorRegistry.Toggled` | client/src/App.tsx:65 | the optimistic record has `connected` equal to the negated flag and every other property of the existing record; for an unknown id it has `connected` only |
| `SensorRegistry.Toggle` | client/src/App.tsx:65-66 | storing the optimistic record keeps the map well formed and keeps ids consistent with keys |
| `SensorRegistry.ToggleStoresNegation` | client/src/App.tsx:65-66 | after a toggle, the id is present and reads as connected exactly when the passed flag was false; other properties of an existing record are kept; an unknown id gets a record with `connected` only; no other entry changes |
| `Lists.Filter` | client/src/App.tsx:76 | `filter` keeps exactly the elements that pass the test and never lengthens the list; a one-element list is kept or emptied by its test |
| `Lists.FilterAppend` | client/src/App.tsx:76 | filtering a concatenation is the concatenation of the filtered parts, so `filter` keeps the input's order and multiplicity |
| `Projection.ConnectedIds` | client/src/App.tsx:75 | `connectedSensors` holds exactly the ids of the connected records |
| `Projection.ShownBy` | client/src/App.tsx:76 | the filter callback passes every record when the flag is off, and exactly the records whose id is in the connected-id set when it is on |
| `Projection.Project` | client/src/App.tsx:76 | with the flag off, every record is shown, in registry order; in either case a record is shown exactly when it is in the list and the flag is off or its id is a connected record's id |
| `Projection.ProjectShowsConnected` | client/src/App.tsx:75-76 | with the flag on and no shared ids, exactly the connected records are shown, in registry order |
| `Projection.ProjectRegistry` | client/src/App.tsx:75-76 | for a registry whose records carry their keys as ids, the flag on shows exactly the connected values in order; the flag off shows all values |
| `Projection.IdlessRecordsShownTogether` | client/src/App.tsx:75-76 | two records with no id, one disconnected, are both shown with the flag on |
| `Projection.ProjectExample` | client/src/App.tsx:75-76 | with `a` connected and `b` not, the flag on shows [a] and the flag off shows [a, b] |
| `Commands.CommandFor` | client/src/App.tsx:56-57 | the command is `disconnect` exactly when the passed flag is true, and `connect` otherwise; it carries the same id |
| `Dashboard.Socket.constructor` | client/src/App.tsx:37 | a socket starts in a given ready state with nothing sent |
| `Dashboard.Socket.Send` | client/src/App.tsx:61 | sending on an open socket appends the message to what it has sent |
| `Dashboard.App.constructor` | client/src/App.tsx:29-33 | the component starts with an empty map, the filter off, and the socket it is given |
| `Dashboard.App.Store` | client/src/App.tsx:66 | writing the new map back is `set` on the old one and keeps the invariant |
| `Dashboard.App.UpdateSensorData` | client/src/App.tsx:50-52 | the new map is the old one merged with the inbound record; the invariant holds |
| `Dashboard.App.ToggleSensorConnection` | client/src/App.tsx:55-67 | exactly one `CommandFor(id, connected)` is appended to the socket's messages when the socket exists and is OPEN, and nothing otherwise, with no error; the map always becomes `Toggle(old, id, connected)` |
| `Dashboard.App.ToggleShowConnected` | client/src/App.tsx:70-72 | flips the filter flag, so two flips restore it |
| `Dashboard.App.FilteredSensors` | client/src/App.tsx:74-76 | with the filter off, all records in map order; with it on and every record carrying its key as id, exactly the connected records in map order; reads the state without changing it |

## Left out

- WebSocket creation, the `onmessage` wiring and `close()` on unmount (client/src/App.tsx:36-47) are I/O and lifecycle. The socket the mount effect stores is passed to the `App` constructor. Its ready state is set by the browser and is not modelled as changing.
- `JSON.parse` of inbound frames (client/src/App.tsx:41) is a foreign call. Inbound data enters as an already parsed record. The source has no malformed-frame handling, so none is modelled. Unknown extra properties are not represented.
- `JSON.stringify` of the outbound command (client/src/App.tsx:61): the socket records the `{command, id}` value, not its text.
- UpdateSensorData: requires the inbound record to carry an `id`, as the `SensorModal` type declares. A frame without one would be stored under the key `undefined`, and that case is not modelled.
- ToggleSensorConnection: takes the card's `connected` flag as a boolean. A record without the property passes `undefined`, which behaves as `false` in both uses. The flag is taken as passed, not re-read from the map.
- React state machinery (`useState`, batched `setSensors` updaters, the `sensors` value captured by the render at client/src/App.tsx:65): each handler is one atomic step on the current state.
- JSX rendering (client/src/App.tsx:79-104) and client/src/Sensor.tsx. The card's only logic forwards its sensor to the toggle handler.
- Reconnection, retry and backoff do not exist in the source.
