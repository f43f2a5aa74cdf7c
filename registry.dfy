/**
  The sensor registry of App.tsx as a value: the `Map` from sensor id to
  record, and the two ways the client changes it, merging an inbound
  update (`updateSensorData`) and storing the optimistic record of a
  toggle (`toggleSensorConnection`).
*/
module SensorRegistry {
  import opened Options
  import opened Records
  import opened OrderedMaps
  import opened Lists

  type Registry = OrderedMap<SensorRecord>

  /** Every stored record either names its own key as its id or has no id at all. */
  ghost predicate IdsMatchKeys(m: Registry) {
    forall k :: k in m.entries ==> m.entries[k].id == Some(k) || m.entries[k].id == None
  }

  /** Every stored record names its own key as its id. */
  ghost predicate WellKeyed(m: Registry) {
    forall k :: k in m.entries ==> m.entries[k].id == Some(k)
  }

  /**
    `updateSensorData(data)`: `map.set(data.id, {...map.get(data.id), ...data})`.
    The inbound record always carries its id (the `SensorModal` type requires it).
  */
  function Merge(m: Registry, data: SensorRecord): (r: Registry)
    requires Valid(m) && data.id.Some?
    ensures Valid(r)
    ensures IdsMatchKeys(m) ==> IdsMatchKeys(r)
    ensures WellKeyed(m) ==> WellKeyed(r)
  {
    var k := data.id.value;
    Set(m, k, Spread(OrNoProps(Get(m, k)), data))
  }

  /**
    After a merge, the entry for `data.id` has every property `data` has with
    `data`'s value, and every other property as the previous entry had it
    (unset when the id was new).
  */
  lemma MergeOverlays(m: Registry, data: SensorRecord)
    requires Valid(m) && data.id.Some?
    ensures var k, r := data.id.value, Merge(m, data);
      && k in r.entries
      && r.entries[k].id == data.id
      && (forall p :: Property(data, p).Some? ==> Property(r.entries[k], p) == Property(data, p))
      && (forall p :: Property(data, p).None? ==>
            Property(r.entries[k], p) == if k in m.entries then Property(m.entries[k], p) else None)
  {
  }

  /** A merge changes the entry for `data.id` and no other, and adds `data.id` to the keys. */
  lemma MergeTouchesOnlyItsEntry(m: Registry, data: SensorRecord)
    requires Valid(m) && data.id.Some?
    ensures var r := Merge(m, data);
      && r.entries.Keys == m.entries.Keys + {data.id.value}
      && forall k :: k != data.id.value ==> Get(r, k) == Get(m, k)
  {
  }

  /** Merging the same update twice leaves the registry as merging it once. */
  lemma MergeIdempotent(m: Registry, data: SensorRecord)
    requires Valid(m) && data.id.Some?
    ensures Merge(Merge(m, data), data) == Merge(m, data)
  {
  }

  /**
    Merging keeps the order of the values: an id already present keeps its
    place, a new id goes to the end.
  */
  lemma MergeKeepsOrder(m: Registry, data: SensorRecord)
    requires Valid(m) && data.id.Some?
    ensures var k, r := data.id.value, Merge(m, data);
      && (k in m.entries ==> r.keys == m.keys && forall i :: 0 <= i < |m.keys| && m.keys[i] == k ==> Values(r) == Values(m)[i := r.entries[k]])
      && (k !in m.entries ==> r.keys == m.keys + [k] && Values(r) == Values(m) + [r.entries[k]])
  {
  }

  /** Merging a sequence of inbound updates, one after the other, in arrival order. */
  function MergeAll(m: Registry, ds: seq<SensorRecord>): (r: Registry)
    requires Valid(m) && forall d :: d in ds ==> d.id.Some?
    ensures Valid(r)
    ensures r.entries.Keys == m.entries.Keys + set d | d in ds :: d.id.value
    decreases |ds|
  {
    if ds == [] then m else MergeAll(Merge(m, ds[0]), ds[1..])
  }

  /** The test "this update is for sensor `k`". */
  function IsFor(k: string): SensorRecord -> bool {
    (d: SensorRecord) => d.id == Some(k)
  }

  /** The updates among `ds` addressed to sensor `k`, in order. */
  function AddressedTo(ds: seq<SensorRecord>, k: string): seq<SensorRecord> {
    Filter(ds, IsFor(k))
  }

  /** The field-wise overlay of `us` onto `base`, later updates overriding earlier ones. */
  function OverlayAll(base: SensorRecord, us: seq<SensorRecord>): SensorRecord
    decreases |us|
  {
    if us == [] then base else OverlayAll(Spread(base, us[0]), us[1..])
  }

  /**
    After a sequence of merges, a sensor's record is the overlay, in order,
    of the updates addressed to it onto the record it had before; a sensor
    that had no record and received no update still has none.
  */
  lemma {:induction false} MergeAllOverlays(m: Registry, ds: seq<SensorRecord>, k: string)
    requires Valid(m) && forall d :: d in ds ==> d.id.Some?
    ensures Get(MergeAll(m, ds), k) ==
      if k in m.entries || AddressedTo(ds, k) != [] then Some(OverlayAll(OrNoProps(Get(m, k)), AddressedTo(ds, k)))
      else None
    decreases |ds|
  {
    if ds != [] {
      var d := ds[0];
      var m' := Merge(m, d);
      MergeAllOverlays(m', ds[1..], k);
      assert MergeAll(m, ds) == MergeAll(m', ds[1..]);
      if d.id == Some(k) {
        assert AddressedTo(ds, k) == [d] + AddressedTo(ds[1..], k);
        assert OrNoProps(Get(m', k)) == Spread(OrNoProps(Get(m, k)), d);
      } else {
        assert AddressedTo(ds, k) == AddressedTo(ds[1..], k);
        assert Get(m', k) == Get(m, k);
      }
    }
  }

  /**
    Two updates for `s1`, the second carrying only a new value: the unit and
    the connected flag of the first survive, the value is the second's.
  */
  lemma MergeSequenceExample()
    ensures var first := SensorRecord(Some("s1"), None, Some(true), Some("C"), Some("5"));
      var second := SensorRecord(Some("s1"), None, None, None, Some("7"));
      Get(MergeAll(EmptyMap(), [first, second]), "s1") == Some(SensorRecord(Some("s1"), None, Some(true), Some("C"), Some("7")))
  {
    var first := SensorRecord(Some("s1"), None, Some(true), Some("C"), Some("5"));
    var second := SensorRecord(Some("s1"), None, None, None, Some("7"));
    MergeAllOverlays(EmptyMap(), [first, second], "s1");
    assert [first, second][1..] == [second] && [second][1..] == [];
    assert AddressedTo([second], "s1") == [second] + AddressedTo([], "s1");
    assert AddressedTo([first, second], "s1") == [first] + AddressedTo([second], "s1");
    assert OverlayAll(NoProps, [first, second]) == OverlayAll(Spread(NoProps, first), [second]);
    assert OverlayAll(Spread(NoProps, first), [second]) == OverlayAll(Spread(Spread(NoProps, first), second), []);
  }

  /**
    The optimistic record of `toggleSensorConnection`:
    `{...map.get(id), connected: !connected}`.
  */
  function Toggled(existing: Option<SensorRecord>, connected: bool): (r: SensorRecord)
    ensures r.connected == Some(!connected)
    ensures forall p :: p != Connected ==> Property(r, p) == Property(OrNoProps(existing), p)
    ensures existing.None? ==> r == SensorRecord(None, None, Some(!connected), None, None)
  {
    Spread(OrNoProps(existing), SensorRecord(None, None, Some(!connected), None, None))
  }

  /** The registry after a toggle: `map.set(id, Toggled(map.get(id), connected))`. */
  function Toggle(m: Registry, id: string, connected: bool): (r: Registry)
    requires Valid(m)
    ensures Valid(r)
    ensures IdsMatchKeys(m) ==> IdsMatchKeys(r)
    ensures WellKeyed(m) && id in m.entries ==> WellKeyed(r)
  {
    Set(m, id, Toggled(Get(m, id), connected))
  }

  /**
    A toggle stores `connected: !connected` under `id`, keeps every other
    property of the existing record (for an unknown id, creates a record
    whose only property is `connected`), and leaves every other entry as it was.
  */
  lemma ToggleStoresNegation(m: Registry, id: string, connected: bool)
    requires Valid(m)
    ensures var r := Toggle(m, id, connected);
      && id in r.entries
      && IsConnected(r.entries[id]) == !connected
      && (id in m.entries ==> forall p :: p != Connected ==> Property(r.entries[id], p) == Property(m.entries[id], p))
      && (id !in m.entries ==> r.entries[id] == SensorRecord(None, None, Some(!connected), None, None))
      && r.entries.Keys == m.entries.Keys + {id}
      && forall k :: k != id ==> Get(r, k) == Get(m, k)
  {
  }
}
