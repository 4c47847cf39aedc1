/**
 Zemismart SPM power meter (TS0601 `_TZE200_bcusnqt8`). The vendor cluster
 receives total energy, reverse energy and, per phase, a packed `data64`
 holding power, current and voltage; it republishes them onto the Metering
 cluster and onto the Electrical Measurement cluster (section 4.9 of the
 Zigbee Cluster Library specification).
 */
module Zemismart {
  import opened Cluster
  import opened LittleEndian

  // Vendor attribute ids of the manufacturer cluster.
  const TOTAL_ENERGY_ATTR := 0x0201
  const TOTAL_REVERSE_ENERGY_ATTR := 0x0202
  const VCP_ATTR := 0x0006
  const VCP_P2_ATTR := VCP_ATTR + 1
  const VCP_P3_ATTR := VCP_ATTR + 2

  // Metering attributes written and fixed by the quirk.
  const CURRENT_DELIVERED_ID := 0x0000
  const CURRENT_RECEIVED_ID := 0x0001
  const POWER_WATT := 0x0000
  const UNIT_OF_MEASURE_ID := 0x0300
  const DIVISOR_ID := 0x0302

  /**
   The constant attributes of the metering cluster. The literal key 0x0300
   and the unit-of-measure id are the same attribute, so the display keeps
   one entry for it, and both of its values are 0 (kWh).
   */
  const MeteringConstants: map<int, int> :=
    map[0x0300 := POWER_WATT, UNIT_OF_MEASURE_ID := 0, DIVISOR_ID := 100]

  // Electrical Measurement attribute ids (formatting and per-phase readings).
  const AC_VOLTAGE_MULTIPLIER_ID := 0x0600
  const AC_VOLTAGE_DIVISOR_ID := 0x0601
  const AC_CURRENT_MULTIPLIER_ID := 0x0602
  const AC_CURRENT_DIVISOR_ID := 0x0603

  /** The constant attributes of the electrical measurement cluster. */
  const ElectricalConstants: map<int, int> :=
    map[AC_VOLTAGE_MULTIPLIER_ID := 1, AC_VOLTAGE_DIVISOR_ID := 10,
        AC_CURRENT_MULTIPLIER_ID := 1, AC_CURRENT_DIVISOR_ID := 1000]

  /** The three attributes that receive one phase's readings. */
  datatype PhaseTriple = PhaseTriple(voltage: int, current: int, power: int)

  /** rms_voltage/rms_current/active_power for phases A, B and C. */
  const PhaseAttributes: seq<PhaseTriple> := [
    PhaseTriple(0x0505, 0x0508, 0x050B),
    PhaseTriple(0x0905, 0x0908, 0x090B),
    PhaseTriple(0x0A05, 0x0A08, 0x0A0B)
  ]

  /** The attribute ids a phase's readings are written to. */
  function PhaseIds(t: PhaseTriple): set<int> {
    {t.voltage, t.current, t.power}
  }

  /** The roles the power meter's endpoint binds. */
  const MeterRoles: set<Role> := {Manufacturer, Metering, ElectricalMeasurement}

  /** The three readings packed in one `data64`. */
  datatype Vcp = Vcp(voltage: nat, current: nat, power: nat)

  predicate FitsData64(v: Vcp) {
    v.power < 0x100_0000 && v.current < 0x100_0000 && v.voltage < 0x1_0000
  }

  predicate IsData64(data: seq<int>) {
    |data| == 8 && IsBytes(data)
  }

  /**
   The phase index used for the attribute triple: 0, 1 and 2 as given,
   anything else falls back to phase 0.
   */
  function ClampPhase(phase: int): (p: nat)
    ensures p < |PhaseAttributes|
    ensures 0 <= phase <= 2 ==> p == phase
    ensures (phase < 0 || phase > 2) ==> p == 0
  {
    if phase < 0 || phase > 2 then 0 else phase
  }

  /** The value ranges of the three- and two-byte fields. */
  lemma FieldBounds()
    ensures Pow256(3) == 0x100_0000 && Pow256(2) == 0x1_0000
  {
  }

  /** Power from bytes 0..2, current from bytes 3..5, voltage from bytes 6..7. */
  function DecodeVcp(data: seq<int>): (v: Vcp)
    requires IsData64(data)
    ensures FitsData64(v)
  {
    FieldBounds();
    Vcp(FromLittleEndian(data[6..8]), FromLittleEndian(data[3..6]), FromLittleEndian(data[0..3]))
  }

  /** The `data64` that carries `v`. */
  function EncodeVcp(v: Vcp): (data: seq<int>)
    requires FitsData64(v)
    ensures IsData64(data)
  {
    FieldBounds();
    ToLittleEndian(v.power, 3) + ToLittleEndian(v.current, 3) + ToLittleEndian(v.voltage, 2)
  }

  lemma {:induction false} DecodeEncodeVcp(v: Vcp)
    requires FitsData64(v)
    ensures DecodeVcp(EncodeVcp(v)) == v
  {
    FieldBounds();
    var p, c, u := ToLittleEndian(v.power, 3), ToLittleEndian(v.current, 3), ToLittleEndian(v.voltage, 2);
    var data := EncodeVcp(v);
    assert data[0..3] == p && data[3..6] == c && data[6..8] == u;
    FromToLittleEndian(v.power, 3);
    FromToLittleEndian(v.current, 3);
    FromToLittleEndian(v.voltage, 2);
  }

  lemma {:induction false} EncodeDecodeVcp(data: seq<int>)
    requires IsData64(data)
    ensures EncodeVcp(DecodeVcp(data)) == data
  {
    FieldBounds();
    assert IsBytes(data[0..3]) && IsBytes(data[3..6]) && IsBytes(data[6..8]);
    ToFromLittleEndian(data[0..3]);
    ToFromLittleEndian(data[3..6]);
    ToFromLittleEndian(data[6..8]);
    assert data == data[0..3] + data[3..6] + data[6..8];
  }

  /** The byte layout of the example frame 10 00 00 64 00 00 E8 03. */
  lemma ExampleFrame()
    ensures DecodeVcp([0x10, 0x00, 0x00, 0x64, 0x00, 0x00, 0xE8, 0x03]) == Vcp(1000, 100, 16)
  {
    var data := [0x10, 0x00, 0x00, 0x64, 0x00, 0x00, 0xE8, 0x03];
    assert data[0..3] == [0x10, 0x00, 0x00];
    assert data[3..6] == [0x64, 0x00, 0x00];
    assert data[6..8] == [0xE8, 0x03];
  }

  // ---------------------------------------------------------------------
  // Specification of the updates, as functions of the endpoint state.

  /** The state after `vcp_reported(data, phase)`. */
  function VcpUpdate(cs: Clusters, data: seq<int>, phase: int): (r: Clusters)
    requires ElectricalMeasurement in cs && IsData64(data)
    ensures r.Keys == cs.Keys
    ensures forall role :: role in cs && role != ElectricalMeasurement ==> r[role] == cs[role]
  {
    var t := PhaseAttributes[ClampPhase(phase)];
    var v := DecodeVcp(data);
    var s1 := Write(cs, ElectricalMeasurement, t.voltage, Int(v.voltage));
    var s2 := Write(s1, ElectricalMeasurement, t.current, Int(v.current));
    Write(s2, ElectricalMeasurement, t.power, Int(v.power))
  }

  /** The declared type of the vendor attribute: the VCP ids carry a `data64`. */
  predicate WellTyped(attrid: int, value: Value) {
    attrid in {VCP_ATTR, VCP_P2_ATTR, VCP_P3_ATTR} ==> value.Bytes? && IsData64(value.b)
  }

  /** The state after the manufacturer cluster's `_update_attribute(attrid, value)`. */
  function ManufUpdate(cs: Clusters, attrid: int, value: Value): (r: Clusters)
    requires Bound(cs, MeterRoles) && WellTyped(attrid, value)
    ensures r.Keys == cs.Keys
    ensures attrid !in {TOTAL_ENERGY_ATTR, TOTAL_REVERSE_ENERGY_ATTR} ==> r[Metering] == cs[Metering]
    ensures attrid !in {VCP_ATTR, VCP_P2_ATTR, VCP_P3_ATTR} ==> r[ElectricalMeasurement] == cs[ElectricalMeasurement]
  {
    var own := Write(cs, Manufacturer, attrid, value);
    if attrid == TOTAL_ENERGY_ATTR then Write(own, Metering, CURRENT_DELIVERED_ID, value)
    else if attrid == TOTAL_REVERSE_ENERGY_ATTR then Write(own, Metering, CURRENT_RECEIVED_ID, value)
    else if attrid == VCP_ATTR then VcpUpdate(own, value.b, 0)
    else if attrid == VCP_P2_ATTR then VcpUpdate(own, value.b, 1)
    else if attrid == VCP_P3_ATTR then VcpUpdate(own, value.b, 2)
    else own
  }

  // ---------------------------------------------------------------------
  // Properties of the specification.

  /** The three phase triples use nine different ids, none of them a constant. */
  lemma PhaseTriplesDisjoint()
    ensures forall p :: 0 <= p < 3 ==> |PhaseIds(PhaseAttributes[p])| == 3
    ensures forall p, q :: 0 <= p < q < 3 ==> PhaseIds(PhaseAttributes[p]) !! PhaseIds(PhaseAttributes[q])
    ensures forall p :: 0 <= p < 3 ==> PhaseIds(PhaseAttributes[p]) !! ElectricalConstants.Keys
  {
  }

  /**
   `vcp_reported` writes the decoded voltage, current and power to the
   triple of the clamped phase and nothing else.
   */
  lemma {:induction false} VcpUpdateEffect(cs: Clusters, data: seq<int>, phase: int)
    requires ElectricalMeasurement in cs && IsData64(data)
    ensures var r := VcpUpdate(cs, data, phase);
            var t := PhaseAttributes[ClampPhase(phase)];
            var v := DecodeVcp(data);
            && r.Keys == cs.Keys
            && Get(r, ElectricalMeasurement, t.voltage) == Some(Int(v.voltage))
            && Get(r, ElectricalMeasurement, t.current) == Some(Int(v.current))
            && Get(r, ElectricalMeasurement, t.power) == Some(Int(v.power))
            && (forall role, k :: (role != ElectricalMeasurement || k !in PhaseIds(t)) ==>
                  Get(r, role, k) == Get(cs, role, k))
  {
  }

  /** A phase other than the clamped one keeps all three of its readings. */
  lemma {:induction false} VcpOtherPhasesUnchanged(cs: Clusters, data: seq<int>, phase: int, other: nat)
    requires ElectricalMeasurement in cs && IsData64(data)
    requires other < 3 && other != ClampPhase(phase)
    ensures forall k :: k in PhaseIds(PhaseAttributes[other]) ==>
              Get(VcpUpdate(cs, data, phase), ElectricalMeasurement, k) == Get(cs, ElectricalMeasurement, k)
  {
  }

  /** After a report, reading the phase attributes returns the decoded readings. */
  lemma {:induction false} VcpReadBack(cs: Clusters, data: seq<int>, phase: int)
    requires ElectricalMeasurement in cs && IsData64(data)
    ensures var r := VcpUpdate(cs, data, phase);
            var t := PhaseAttributes[ClampPhase(phase)];
            var v := DecodeVcp(data);
            && Read(ElectricalConstants, r[ElectricalMeasurement], t.voltage) == Some(Int(v.voltage))
            && Read(ElectricalConstants, r[ElectricalMeasurement], t.current) == Some(Int(v.current))
            && Read(ElectricalConstants, r[ElectricalMeasurement], t.power) == Some(Int(v.power))
  {
  }

  /** The constant tables: kWh with divisor 100; voltage 1/10 and current 1/1000. */
  lemma ConstantReads(metering: Cache, electrical: Cache)
    ensures Read(MeteringConstants, metering, UNIT_OF_MEASURE_ID) == Some(Int(0))
    ensures Read(MeteringConstants, metering, DIVISOR_ID) == Some(Int(100))
    ensures Read(ElectricalConstants, electrical, AC_VOLTAGE_MULTIPLIER_ID) == Some(Int(1))
    ensures Read(ElectricalConstants, electrical, AC_VOLTAGE_DIVISOR_ID) == Some(Int(10))
    ensures Read(ElectricalConstants, electrical, AC_CURRENT_MULTIPLIER_ID) == Some(Int(1))
    ensures Read(ElectricalConstants, electrical, AC_CURRENT_DIVISOR_ID) == Some(Int(1000))
  {
  }

  /** The manufacturer cluster's own cache always receives the raw value. */
  lemma {:induction false} ManufOwnCache(cs: Clusters, attrid: int, value: Value)
    requires Bound(cs, MeterRoles) && WellTyped(attrid, value)
    ensures ManufUpdate(cs, attrid, value).Keys == cs.Keys
    ensures Get(ManufUpdate(cs, attrid, value), Manufacturer, attrid) == Some(value)
  {
  }

  /** Total energy goes unchanged to the delivered summation, reverse energy to the received one. */
  lemma {:induction false} EnergyRouting(cs: Clusters, value: Value)
    requires Bound(cs, MeterRoles)
    ensures var r := ManufUpdate(cs, TOTAL_ENERGY_ATTR, value);
            && Read(MeteringConstants, r[Metering], CURRENT_DELIVERED_ID) == Some(value)
            && r[ElectricalMeasurement] == cs[ElectricalMeasurement]
            && (forall k :: k != CURRENT_DELIVERED_ID ==> Get(r, Metering, k) == Get(cs, Metering, k))
            && forall role, k ::
                 !((role == Manufacturer && k == TOTAL_ENERGY_ATTR) || (role == Metering && k == CURRENT_DELIVERED_ID)) ==>
                 Get(r, role, k) == Get(cs, role, k)
    ensures var r := ManufUpdate(cs, TOTAL_REVERSE_ENERGY_ATTR, value);
            && Read(MeteringConstants, r[Metering], CURRENT_RECEIVED_ID) == Some(value)
            && r[ElectricalMeasurement] == cs[ElectricalMeasurement]
            && (forall k :: k != CURRENT_RECEIVED_ID ==> Get(r, Metering, k) == Get(cs, Metering, k))
            && forall role, k ::
                 !((role == Manufacturer && k == TOTAL_REVERSE_ENERGY_ATTR) || (role == Metering && k == CURRENT_RECEIVED_ID)) ==>
                 Get(r, role, k) == Get(cs, role, k)
  {
  }

  /** VCP attributes 0x0006, 0x0007 and 0x0008 report phases 0, 1 and 2; metering is untouched. */
  lemma {:induction false} VcpRouting(cs: Clusters, attrid: int, value: Value)
    requires Bound(cs, MeterRoles) && WellTyped(attrid, value)
    requires attrid in {VCP_ATTR, VCP_P2_ATTR, VCP_P3_ATTR}
    ensures var own := Write(cs, Manufacturer, attrid, value);
            ManufUpdate(cs, attrid, value) == VcpUpdate(own, value.b, attrid - VCP_ATTR)
    ensures ManufUpdate(cs, attrid, value)[Metering] == cs[Metering]
  {
  }

  /** Any other vendor attribute only lands in the manufacturer cluster's own cache. */
  lemma {:induction false} OtherAttributesNotRouted(cs: Clusters, attrid: int, value: Value)
    requires Bound(cs, MeterRoles)
    requires attrid !in {TOTAL_ENERGY_ATTR, TOTAL_REVERSE_ENERGY_ATTR, VCP_ATTR, VCP_P2_ATTR, VCP_P3_ATTR}
    ensures ManufUpdate(cs, attrid, value) == Write(cs, Manufacturer, attrid, value)
    ensures ManufUpdate(cs, attrid, value)[Metering] == cs[Metering]
    ensures ManufUpdate(cs, attrid, value)[ElectricalMeasurement] == cs[ElectricalMeasurement]
  {
  }

  /** Reporting the same `data64` for the same phase twice changes nothing the second time. */
  lemma {:induction false} VcpIdempotent(cs: Clusters, data: seq<int>, phase: int)
    requires ElectricalMeasurement in cs && IsData64(data)
    ensures var once := VcpUpdate(cs, data, phase);
            ElectricalMeasurement in once && VcpUpdate(once, data, phase) == once
  {
    var once := VcpUpdate(cs, data, phase);
    var t := PhaseAttributes[ClampPhase(phase)];
    var v := DecodeVcp(data);
    VcpUpdateEffect(cs, data, phase);
    WriteSame(once, ElectricalMeasurement, t.voltage, Int(v.voltage));
    WriteSame(once, ElectricalMeasurement, t.current, Int(v.current));
    WriteSame(once, ElectricalMeasurement, t.power, Int(v.power));
  }

  /** Receiving the same vendor report twice leaves the state of receiving it once. */
  lemma {:induction false} ManufIdempotent(cs: Clusters, attrid: int, value: Value)
    requires Bound(cs, MeterRoles) && WellTyped(attrid, value)
    ensures var once := ManufUpdate(cs, attrid, value);
            Bound(once, MeterRoles) && ManufUpdate(once, attrid, value) == once
  {
    ManufOwnCache(cs, attrid, value);
    var once := ManufUpdate(cs, attrid, value);
    WriteSame(once, Manufacturer, attrid, value);
    if attrid in {VCP_ATTR, VCP_P2_ATTR, VCP_P3_ATTR} {
      VcpIdempotent(Write(cs, Manufacturer, attrid, value), value.b, attrid - VCP_ATTR);
    } else if attrid == TOTAL_ENERGY_ATTR {
      WriteSame(once, Metering, CURRENT_DELIVERED_ID, value);
    } else if attrid == TOTAL_REVERSE_ENERGY_ATTR {
      WriteSame(once, Metering, CURRENT_RECEIVED_ID, value);
    }
  }

  // ---------------------------------------------------------------------
  // The cluster methods, over the endpoint's caches.

  /** `energy_deliver_reported`: the delivered summation takes the value as reported. */
  method EnergyDeliverReported(ep: Endpoint, value: Value)
    requires Metering in ep.clusters
    modifies ep
    ensures ep.clusters == Write(old(ep.clusters), Metering, CURRENT_DELIVERED_ID, value)
  {
    ep.UpdateAttribute(Metering, CURRENT_DELIVERED_ID, value);
  }

  /** `energy_receive_reported`: the received summation takes the value as reported. */
  method EnergyReceiveReported(ep: Endpoint, value: Value)
    requires Metering in ep.clusters
    modifies ep
    ensures ep.clusters == Write(old(ep.clusters), Metering, CURRENT_RECEIVED_ID, value)
  {
    ep.UpdateAttribute(Metering, CURRENT_RECEIVED_ID, value);
  }

  /** `vcp_reported`: clamp the phase, decode the three fields, write them in turn. */
  method VcpReported(ep: Endpoint, value: seq<int>, phase: int)
    requires ElectricalMeasurement in ep.clusters && IsData64(value)
    modifies ep
    ensures ep.clusters == VcpUpdate(old(ep.clusters), value, phase)
  {
    var p := phase;
    if p < 0 || p > 2 {
      p := 0;
    }
    var voltage := FromLittleEndian(value[6..8]);
    var current := FromLittleEndian(value[3..6]);
    var power := FromLittleEndian(value[0..3]);
    ep.UpdateAttribute(ElectricalMeasurement, PhaseAttributes[p].voltage, Int(voltage));
    ep.UpdateAttribute(ElectricalMeasurement, PhaseAttributes[p].current, Int(current));
    ep.UpdateAttribute(ElectricalMeasurement, PhaseAttributes[p].power, Int(power));
  }

  /** `ZemismartManufCluster._update_attribute`: cache the raw value, then route it. */
  method ManufUpdateAttribute(ep: Endpoint, attrid: int, value: Value)
    requires Bound(ep.clusters, MeterRoles) && WellTyped(attrid, value)
    modifies ep
    ensures ep.clusters == ManufUpdate(old(ep.clusters), attrid, value)
  {
    ep.UpdateAttribute(Manufacturer, attrid, value);
    if attrid == TOTAL_ENERGY_ATTR {
      EnergyDeliverReported(ep, value);
    } else if attrid == TOTAL_REVERSE_ENERGY_ATTR {
      EnergyReceiveReported(ep, value);
    } else if attrid == VCP_ATTR {
      VcpReported(ep, value.b, 0);
    } else if attrid == VCP_P2_ATTR {
      VcpReported(ep, value.b, 1);
    } else if attrid == VCP_P3_ATTR {
      VcpReported(ep, value.b, 2);
    }
  }
}
