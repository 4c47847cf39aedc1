/**
 Tuya battery PIR motion and illuminance sensor (TS0601 `_TZE200_3towulqd`).
 The vendor MCU cluster receives data points (DPs); a static table binds each
 handled DP id to a target cluster role, a target attribute name and an
 optional converter, and the generic handler writes the converted value into
 that cluster's cache.
 */
module PirMotion {
  import opened Cluster

  /** `SensitivityLevel`, an enum8. */
  datatype SensitivityLevel = Low | Medium | High {
    function Code(): nat {
      match this
      case Low => 0x00
      case Medium => 0x01
      case High => 0x02
    }
  }

  /** `OnTimeValues`, an enum8: how long motion is held (10, 30, 60, 120 s). */
  datatype OnTimeValues = Sec10 | Sec30 | Sec60 | Sec120 {
    function Code(): nat {
      match this
      case Sec10 => 0x00
      case Sec30 => 0x01
      case Sec60 => 0x02
      case Sec120 => 0x03
    }
  }

  function SensitivityLevelOf(x: int): (l: SensitivityLevel)
    requires 0 <= x <= 2
    ensures l.Code() == x
  {
    if x == 0 then Low else if x == 1 then Medium else High
  }

  function OnTimeValuesOf(x: int): (o: OnTimeValues)
    requires 0 <= x <= 3
    ensures o.Code() == x
  {
    if x == 0 then Sec10 else if x == 1 then Sec30 else if x == 2 then Sec60 else Sec120
  }

  /** Every level decodes back from its own code. */
  lemma SensitivityRoundTrip(l: SensitivityLevel)
    ensures SensitivityLevelOf(l.Code()) == l
  {
  }

  lemma OnTimeRoundTrip(o: OnTimeValues)
    ensures OnTimeValuesOf(o.Code()) == o
  {
  }

  // Target attribute ids (the occupancy and measured_value ids are in `Cluster`).
  const BATTERY_PERCENTAGE_ID := 0x0021      // Power Configuration: battery_percentage_remaining
  const SENSITIVITY_LEVEL_ID := 0xEF09       // vendor: sensitivity_level
  const KEEP_TIME_ID := 0xEF0A               // vendor: keep_time

  /** The `Alarm_1` bit of the IAS zone status. */
  const ALARM_1 := 0x0001

  /** The pure converters attached to the DP table. */
  datatype Converter = InvertedOccupancy | DecodeSensitivity | DecodeOnTime | IlluminanceLogScale

  /** One row of `dp_to_attribute`. */
  datatype DpMapping = DpMapping(role: Role, attribute: string, converter: Option<Converter>)

  const DpToAttribute: map<int, DpMapping> := map[
    1 := DpMapping(Occupancy, "occupancy", Some(InvertedOccupancy)),
    4 := DpMapping(PowerConfiguration, "battery_percentage_remaining", None),
    9 := DpMapping(Manufacturer, "sensitivity_level", Some(DecodeSensitivity)),
    10 := DpMapping(Manufacturer, "keep_time", Some(DecodeOnTime)),
    12 := DpMapping(Illuminance, "measured_value", Some(IlluminanceLogScale))
  ]

  /** The handler named in `data_point_handlers`. */
  datatype Handler = DpToAttrUpdate

  const DataPointHandlers: map<int, Handler> := map[
    1 := DpToAttrUpdate, 4 := DpToAttrUpdate, 9 := DpToAttrUpdate, 10 := DpToAttrUpdate, 12 := DpToAttrUpdate
  ]

  /** The roles the sensor's endpoint binds. */
  const SensorRoles: set<Role> := {Manufacturer, Occupancy, Illuminance, PowerConfiguration}

  /** Name-to-id resolution of the attributes the DP table names, per target cluster. */
  function AttributeId(role: Role, name: string): Option<int> {
    match role
    case Occupancy => if name == "occupancy" then Some(OCCUPANCY_ID) else None
    case PowerConfiguration => if name == "battery_percentage_remaining" then Some(BATTERY_PERCENTAGE_ID) else None
    case Illuminance => if name == "measured_value" then Some(MEASURED_VALUE_ID) else None
    case Manufacturer =>
      if name == "sensitivity_level" then Some(SENSITIVITY_LEVEL_ID)
      else if name == "keep_time" then Some(KEEP_TIME_ID)
      else None
    case _ => None
  }

  /** DP 1: no motion reported (0) raises `Alarm_1`; any other value clears it. */
  function OccupancyFromDp(raw: int): (r: int)
    ensures r == ALARM_1 <==> raw == 0
    ensures r == 0 <==> raw != 0
  {
    if raw == 0 then ALARM_1 else 0
  }

  /**
   DP 12: raw 0 reads as 0; otherwise `10000 * log10(raw) + 1`, a float
   computation that this model receives as `logScale`. `log10` has no value
   for a negative raw.
   */
  function IlluminanceFromDp(raw: int, logScale: int -> int): (r: int)
    requires raw >= 0
    ensures raw == 0 ==> r == 0
    ensures raw != 0 ==> r == logScale(raw)
  {
    if raw != 0 then logScale(raw) else 0
  }

  /** The raw values a converter accepts: the enum codes, and a non-negative illuminance. */
  predicate InDomain(dp: int, raw: int) {
    && (dp == 9 ==> 0 <= raw <= 2)
    && (dp == 10 ==> 0 <= raw <= 3)
    && (dp == 12 ==> 0 <= raw)
  }

  /** Apply a mapping's converter, or pass the raw value through when it has none. */
  function Convert(c: Option<Converter>, raw: int, logScale: int -> int): int
    requires c == Some(DecodeSensitivity) ==> 0 <= raw <= 2
    requires c == Some(DecodeOnTime) ==> 0 <= raw <= 3
    requires c == Some(IlluminanceLogScale) ==> 0 <= raw
  {
    match c
    case None => raw
    case Some(InvertedOccupancy) => OccupancyFromDp(raw)
    case Some(DecodeSensitivity) => SensitivityLevelOf(raw).Code()
    case Some(DecodeOnTime) => OnTimeValuesOf(raw).Code()
    case Some(IlluminanceLogScale) => IlluminanceFromDp(raw, logScale)
  }

  /** The table's keys and handlers, and every target it names resolves on the endpoint. */
  lemma TablesAgree()
    ensures DataPointHandlers.Keys == DpToAttribute.Keys == {1, 4, 9, 10, 12}
    ensures forall dp :: dp in DataPointHandlers ==> DataPointHandlers[dp] == DpToAttrUpdate
    ensures forall dp :: dp in DpToAttribute ==>
              DpToAttribute[dp].role in SensorRoles && AttributeId(DpToAttribute[dp].role, DpToAttribute[dp].attribute).Some?
  {
  }

  /** The cluster and attribute id a handled DP writes to. */
  function Target(dp: int): (t: (Role, int))
    requires dp in DpToAttribute
    ensures t.0 in SensorRoles
  {
    TablesAgree();
    var m := DpToAttribute[dp];
    (m.role, AttributeId(m.role, m.attribute).value)
  }

  /** The state after `_dp_2_attr_update` for a handled DP. */
  function DpToAttrUpdateSpec(cs: Clusters, dp: int, raw: int, logScale: int -> int): (r: Clusters)
    requires Bound(cs, SensorRoles) && dp in DpToAttribute && InDomain(dp, raw)
    ensures r.Keys == cs.Keys
    ensures forall role :: role in cs && role != Target(dp).0 ==> r[role] == cs[role]
  {
    var t := Target(dp);
    Write(cs, t.0, t.1, Int(Convert(DpToAttribute[dp].converter, raw, logScale)))
  }

  /** The state after the MCU cluster dispatches data point `dp` with payload `raw`. */
  function Dispatch(cs: Clusters, dp: int, raw: int, logScale: int -> int): (r: Clusters)
    requires Bound(cs, SensorRoles) && InDomain(dp, raw)
    ensures r.Keys == cs.Keys
    ensures dp in DpToAttribute ==> forall role :: role in cs && role != Target(dp).0 ==> r[role] == cs[role]
  {
    if dp !in DataPointHandlers then cs
    else
      TablesAgree();
      match DataPointHandlers[dp]
      case DpToAttrUpdate => DpToAttrUpdateSpec(cs, dp, raw, logScale)
  }

  // ---------------------------------------------------------------------
  // Properties of the dispatch.

  /** A DP with no handler changes nothing. */
  lemma UnknownDpIgnored(cs: Clusters, dp: int, raw: int, logScale: int -> int)
    requires Bound(cs, SensorRoles) && InDomain(dp, raw)
    requires dp !in {1, 4, 9, 10, 12}
    ensures Dispatch(cs, dp, raw, logScale) == cs
  {
  }

  /** A handled DP changes exactly its target attribute. */
  lemma {:induction false} DispatchFrame(cs: Clusters, dp: int, raw: int, logScale: int -> int)
    requires Bound(cs, SensorRoles) && InDomain(dp, raw) && dp in DpToAttribute
    ensures var r := Dispatch(cs, dp, raw, logScale);
            && r.Keys == cs.Keys
            && Get(r, Target(dp).0, Target(dp).1) == Some(Int(Convert(DpToAttribute[dp].converter, raw, logScale)))
            && forall role, k :: (role, k) != Target(dp) ==> Get(r, role, k) == Get(cs, role, k)
  {
  }

  /** DP 1 sets occupancy to `Alarm_1` exactly when the raw value is 0. */
  lemma {:induction false} OccupancyDp(cs: Clusters, raw: int, logScale: int -> int)
    requires Bound(cs, SensorRoles)
    ensures Get(Dispatch(cs, 1, raw, logScale), Occupancy, OCCUPANCY_ID) == Some(Int(ALARM_1)) <==> raw == 0
    ensures Get(Dispatch(cs, 1, raw, logScale), Occupancy, OCCUPANCY_ID) == Some(Int(0)) <==> raw != 0
  {
  }

  /** DP 4 reaches the battery percentage unchanged. */
  lemma {:induction false} BatteryDp(cs: Clusters, raw: int, logScale: int -> int)
    requires Bound(cs, SensorRoles)
    ensures Get(Dispatch(cs, 4, raw, logScale), PowerConfiguration, BATTERY_PERCENTAGE_ID) == Some(Int(raw))
  {
  }

  /** DPs 9 and 10 store the code of the decoded enum, which is the raw code itself. */
  lemma {:induction false} EnumDps(cs: Clusters, raw: int, logScale: int -> int)
    requires Bound(cs, SensorRoles)
    ensures 0 <= raw <= 2 ==>
              Get(Dispatch(cs, 9, raw, logScale), Manufacturer, SENSITIVITY_LEVEL_ID) == Some(Int(raw))
    ensures 0 <= raw <= 3 ==>
              Get(Dispatch(cs, 10, raw, logScale), Manufacturer, KEEP_TIME_ID) == Some(Int(raw))
  {
  }

  /** DP 12 with raw 0 sets the measured illuminance to 0. */
  lemma {:induction false} IlluminanceDpZero(cs: Clusters, logScale: int -> int)
    requires Bound(cs, SensorRoles)
    ensures Get(Dispatch(cs, 12, 0, logScale), Illuminance, MEASURED_VALUE_ID) == Some(Int(0))
  {
  }

  /** DP 12 with a positive raw value sets the measured illuminance to the log scale of it. */
  lemma {:induction false} IlluminanceDpNonzero(cs: Clusters, raw: int, logScale: int -> int)
    requires Bound(cs, SensorRoles) && raw > 0
    ensures Get(Dispatch(cs, 12, raw, logScale), Illuminance, MEASURED_VALUE_ID) == Some(Int(logScale(raw)))
  {
  }

  /** Dispatching the same data point twice leaves the state of dispatching it once. */
  lemma {:induction false} DispatchIdempotent(cs: Clusters, dp: int, raw: int, logScale: int -> int)
    requires Bound(cs, SensorRoles) && InDomain(dp, raw)
    ensures var once := Dispatch(cs, dp, raw, logScale);
            Bound(once, SensorRoles) && Dispatch(once, dp, raw, logScale) == once
  {
    TablesAgree();
    var once := Dispatch(cs, dp, raw, logScale);
    if dp in DpToAttribute {
      var twice := Dispatch(once, dp, raw, logScale);
      forall role, k
        ensures Get(twice, role, k) == Get(once, role, k)
      {
      }
      SameEverywhere(twice, once);
    }
  }

  // ---------------------------------------------------------------------
  // The battery configuration cluster's constants.

  const BATTERY_SIZE_ID := 0x0031
  const BATTERY_QUANTITY_ID := 0x0033

  /** One CR2450 cell (battery size code 9). */
  const BatteryConstants: map<int, int> := map[BATTERY_SIZE_ID := 9, BATTERY_QUANTITY_ID := 1]

  /** The battery metadata reads as constants, and DP 4's battery percentage is not shadowed by them. */
  lemma {:induction false} BatteryReads(cs: Clusters, raw: int, logScale: int -> int)
    requires Bound(cs, SensorRoles)
    ensures var r := Dispatch(cs, 4, raw, logScale);
            && Read(BatteryConstants, r[PowerConfiguration], BATTERY_SIZE_ID) == Some(Int(9))
            && Read(BatteryConstants, r[PowerConfiguration], BATTERY_QUANTITY_ID) == Some(Int(1))
            && Read(BatteryConstants, r[PowerConfiguration], BATTERY_PERCENTAGE_ID) == Some(Int(raw))
  {
  }

  // ---------------------------------------------------------------------
  // Outbound writes.

  /** `foundation.ZCLHeader.NO_MANUFACTURER_ID`: no manufacturer code in the header. */
  const NO_MANUFACTURER_ID := -1

  /** What `write_attributes` hands to the transport. */
  datatype WriteRequest<A> = WriteRequest(attributes: A, manufacturer: int)

  /** `write_attributes`: forward the attributes with the manufacturer code forced off. */
  function WriteAttributes<A>(attributes: A, manufacturer: Option<int>): (r: WriteRequest<A>)
    ensures r.attributes == attributes
    ensures r.manufacturer == NO_MANUFACTURER_ID
  {
    WriteRequest(attributes, NO_MANUFACTURER_ID)
  }

  /** The caller's manufacturer code has no effect, and the header carries no valid 16-bit code. */
  lemma WriteIgnoresManufacturer<A>(attributes: A, m1: Option<int>, m2: Option<int>)
    ensures WriteAttributes(attributes, m1) == WriteAttributes(attributes, m2)
    ensures !(0 <= WriteAttributes(attributes, m1).manufacturer <= 0xFFFF)
  {
  }

  // ---------------------------------------------------------------------
  // The attribute table of the MCU cluster.

  /** The declared type of an attribute table entry. */
  datatype AttrType = SensitivityLevelType | OnTimeValuesType | OtherType(tag: string)

  datatype AttrDef = AttrDef(name: string, kind: AttrType)

  /** An attribute table (`attributes` of a cluster class). */
  class AttributeTable {
    var defs: map<int, AttrDef>

    constructor (defs: map<int, AttrDef>)
      ensures this.defs == defs
    {
      this.defs := defs;
    }

    /** `copy()`: a new table with the same entries. */
    method Copy() returns (t: AttributeTable)
      ensures fresh(t) && t.defs == defs
    {
      t := new AttributeTable(defs);
    }

    /** `update({id: def})`: add or replace one entry in place. */
    method Update(id: int, def: AttrDef)
      modifies this
      ensures defs == old(defs)[id := def]
    {
      defs := defs[id := def];
    }
  }

  /**
   The MCU cluster's table: a copy of the base table extended with the two
   vendor attributes; the base table is left as it was.
   */
  method PirAttributes(base: AttributeTable) returns (attributes: AttributeTable)
    ensures fresh(attributes)
    ensures base.defs == old(base.defs)
    ensures attributes.defs.Keys == base.defs.Keys + {SENSITIVITY_LEVEL_ID, KEEP_TIME_ID}
    ensures attributes.defs[SENSITIVITY_LEVEL_ID] == AttrDef("sensitivity_level", SensitivityLevelType)
    ensures attributes.defs[KEEP_TIME_ID] == AttrDef("keep_time", OnTimeValuesType)
    ensures forall id :: id in base.defs && id !in {SENSITIVITY_LEVEL_ID, KEEP_TIME_ID} ==>
              attributes.defs[id] == base.defs[id]
  {
    attributes := base.Copy();
    attributes.Update(SENSITIVITY_LEVEL_ID, AttrDef("sensitivity_level", SensitivityLevelType));
    attributes.Update(KEEP_TIME_ID, AttrDef("keep_time", OnTimeValuesType));
  }

  // ---------------------------------------------------------------------
  // The dispatch methods, over the endpoint's caches.

  /** `_dp_2_attr_update`: look up the mapping, convert, overwrite the target attribute. */
  method DpToAttrUpdateMethod(ep: Endpoint, dp: int, raw: int, logScale: int -> int)
    requires Bound(ep.clusters, SensorRoles) && dp in DpToAttribute && InDomain(dp, raw)
    modifies ep
    ensures ep.clusters == DpToAttrUpdateSpec(old(ep.clusters), dp, raw, logScale)
  {
    TablesAgree();
    var mapping := DpToAttribute[dp];
    var value := raw;
    if mapping.converter.Some? {
      value := Convert(mapping.converter, raw, logScale);
    }
    var id := AttributeId(mapping.role, mapping.attribute).value;
    ep.UpdateAttribute(mapping.role, id, Int(value));
  }

  /** Handle one incoming data point: unhandled ids are ignored. */
  method HandleDataPoint(ep: Endpoint, dp: int, raw: int, logScale: int -> int)
    requires Bound(ep.clusters, SensorRoles) && InDomain(dp, raw)
    modifies ep
    ensures ep.clusters == Dispatch(old(ep.clusters), dp, raw, logScale)
  {
    if dp in DataPointHandlers {
      TablesAgree();
      match DataPointHandlers[dp]
      case DpToAttrUpdate => DpToAttrUpdateMethod(ep, dp, raw, logScale);
    }
  }
}
