/** Optional values: a property that a JavaScript object may lack. */
module Options {
  datatype Option<+T> = None | Some(value: T)
}

/**
  The client's record for one sensor (the `SensorModal` interface of App.tsx)
  and the object spread `{...base, ...top}` through which every change to a
  record is made.
*/
module Records {
  import opened Options

  /**
    A sensor as the client stores it. The interface declares all five
    properties, but records are built by spreading partial updates onto
    whatever was there before, so any of them may be missing.
  */
  datatype SensorRecord = SensorRecord(
    id: Option<string>,
    name: Option<string>,
    connected: Option<bool>,
    unit: Option<string>,
    value: Option<string>)

  /** `{}`: the record with no properties, which is also all that spreading `undefined` contributes. */
  const NoProps := SensorRecord(None, None, None, None, None)

  /** The property names of a record, and the JSON values they hold. */
  datatype Prop = Id | Name | Connected | Unit | Value
  datatype Json = Str(s: string) | Bool(b: bool)

  function Text(o: Option<string>): Option<Json> {
    if o.Some? then Some(Str(o.value)) else None
  }

  /** The record seen as a JavaScript object: the value of property `p`, or None when `r` lacks it. */
  function Property(r: SensorRecord, p: Prop): Option<Json> {
    match p
    case Id => Text(r.id)
    case Name => Text(r.name)
    case Connected => if r.connected.Some? then Some(Bool(r.connected.value)) else None
    case Unit => Text(r.unit)
    case Value => Text(r.value)
  }

  /** JavaScript truthiness of `sensor.connected`: a missing flag reads as false. */
  predicate IsConnected(r: SensorRecord)
    ensures IsConnected(r) <==> Property(r, Connected) == Some(Bool(true))
  {
    r.connected == Some(true)
  }

  function Over<T>(under: Option<T>, over: Option<T>): Option<T> {
    if over.Some? then over else under
  }

  /** `{...base, ...top}`: every property `top` has is taken from `top`, every other one from `base`. */
  function Spread(base: SensorRecord, top: SensorRecord): (r: SensorRecord)
    ensures forall p :: Property(top, p).Some? ==> Property(r, p) == Property(top, p)
    ensures forall p :: Property(top, p).None? ==> Property(r, p) == Property(base, p)
  {
    SensorRecord(
      Over(base.id, top.id),
      Over(base.name, top.name),
      Over(base.connected, top.connected),
      Over(base.unit, top.unit),
      Over(base.value, top.value))
  }

  /** Spreading the same object a second time changes nothing. */
  lemma SpreadIdempotent(base: SensorRecord, top: SensorRecord)
    ensures Spread(Spread(base, top), top) == Spread(base, top)
  {
  }

  /** `{...undefined}` is `{}`: what a missing map entry contributes to a spread. */
  function OrNoProps(existing: Option<SensorRecord>): (r: SensorRecord)
    ensures forall p :: Property(r, p) == if existing.Some? then Property(existing.value, p) else None
  {
    if existing.Some? then existing.value else NoProps
  }
}
