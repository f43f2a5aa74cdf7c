/**
  The list of sensors the dashboard shows (`connectedSensors` and
  `filteredSensors` in App.tsx): the registry's values in order, restricted,
  when "connected only" is on, to the records whose id is among the ids of
  the connected records.
*/
module Projection {
  import opened Options
  import opened Records
  import opened OrderedMaps
  import opened SensorRegistry
  import opened Lists

  /** `connectedSensors`: the ids (a missing id included, as `undefined`) of the connected records. */
  function ConnectedIds(vs: seq<SensorRecord>): (ids: set<Option<string>>)
    ensures forall r :: r in vs && IsConnected(r) ==> r.id in ids
    ensures forall id :: id in ids ==> exists r :: r in vs && IsConnected(r) && r.id == id
  {
    set r | r in vs && IsConnected(r) :: r.id
  }

  /** The test `filteredSensors` applies to each record. */
  function ShownBy(showConnectedOnly: bool, ids: set<Option<string>>): (shown: SensorRecord -> bool)
    ensures !showConnectedOnly ==> forall r :: shown(r)
    ensures showConnectedOnly ==> forall r :: shown(r) <==> r.id in ids
  {
    (r: SensorRecord) => !showConnectedOnly || r.id in ids
  }

  /**
    `filteredSensors`, over the values `vs` of the registry: with the filter
    off, every record in order; with it on, the records whose id is the id
    of some connected record.
  */
  function Project(vs: seq<SensorRecord>, showConnectedOnly: bool): (shown: seq<SensorRecord>)
    ensures !showConnectedOnly ==> shown == vs
    ensures forall r :: r in shown <==> r in vs && (!showConnectedOnly || r.id in ConnectedIds(vs))
  {
    var keep := ShownBy(showConnectedOnly, ConnectedIds(vs));
    if !showConnectedOnly then FilterKeepsAll(vs, keep); Filter(vs, keep)
    else Filter(vs, keep)
  }

  /** No two records of `vs` share an id (counting a missing id as one value). */
  ghost predicate DistinctIds(vs: seq<SensorRecord>) {
    forall i, j :: 0 <= i < |vs| && 0 <= j < |vs| && vs[i].id == vs[j].id ==> i == j
  }

  /**
    With the filter on and no id shared by two records, exactly the
    connected records are shown, in registry order.
  */
  lemma ProjectShowsConnected(vs: seq<SensorRecord>)
    requires DistinctIds(vs)
    ensures Project(vs, true) == Filter(vs, IsConnected)
  {
    var ids := ConnectedIds(vs);
    forall x | x in vs ensures ShownBy(true, ids)(x) == IsConnected(x) {
      if x.id in ids {
        var y :| y in vs && IsConnected(y) && y.id == x.id;
        var i :| 0 <= i < |vs| && vs[i] == x;
        var j :| 0 <= j < |vs| && vs[j] == y;
        assert i == j;
      }
    }
    FilterCongruent(vs, ShownBy(true, ids), IsConnected);
  }

  /** In a registry whose records carry their own keys as ids, the values have distinct ids. */
  lemma WellKeyedValuesHaveDistinctIds(m: Registry)
    requires Valid(m) && WellKeyed(m)
    ensures DistinctIds(Values(m))
  {
  }

  /**
    The shown list of a registry: all values in order when the flag is off;
    when it is on and every record carries its key as id, exactly the
    connected values in order.
  */
  lemma ProjectRegistry(m: Registry)
    requires Valid(m)
    ensures Project(Values(m), false) == Values(m)
    ensures WellKeyed(m) ==> Project(Values(m), true) == Filter(Values(m), IsConnected)
  {
    if WellKeyed(m) {
      WellKeyedValuesHaveDistinctIds(m);
      ProjectShowsConnected(Values(m));
    }
  }

  /**
    Why the hypothesis of ProjectShowsConnected is needed: two records without
    an id, one connected and one not, share the id `undefined`, so the
    disconnected one is shown too.
  */
  lemma IdlessRecordsShownTogether()
    ensures var off := SensorRecord(None, None, Some(false), None, None);
      var on := SensorRecord(None, None, Some(true), None, None);
      Project([off, on], true) == [off, on]
  {
  }

  /** Two sensors, `a` connected and `b` not: "connected only" shows `a`, otherwise both. */
  lemma ProjectExample()
    ensures var a := SensorRecord(Some("a"), None, Some(true), None, None);
      var b := SensorRecord(Some("b"), None, Some(false), None, None);
      Project([a, b], true) == [a] && Project([a, b], false) == [a, b]
  {
  }
}
