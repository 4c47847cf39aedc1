# Vendor-to-standard translation in three Zigbee quirks

This project models, in Dafny, how three device quirks translate vendor-proprietary reports into
standard Zigbee Cluster Library (ZCL) attributes on sibling clusters of the same endpoint, and
proves properties of that translation.

- **Zemismart SPM power meter** (`TS0601_TZE200_bcusnqt8.py`, module `Zemismart`). The vendor
  cluster caches each report. Total energy (0x0201) and reverse energy (0x0202) go unchanged to the
  Metering cluster's delivered (0x0000) and received (0x0001) summations. The three VCP attributes
  (0x0006, 0x0007, 0x0008) carry a packed `data64`: power in bytes 0–2, current in bytes 3–5 and
  voltage in bytes 6–7, each little-endian. These land on the voltage/current/power attributes of
  phase A, B or C of the Electrical Measurement cluster (section 4.9 of the ZCL specification). An
  out-of-range phase falls back to phase A. Both local clusters carry constant unit, multiplier and
  divisor tables.
- **Tuya PIR motion/illuminance sensor** (`TS0601_TZE200_3towulqd.py`, module `PirMotion`). A static
  data-point (DP) table maps DP ids 1, 4, 9, 10 and 12 to a target cluster role, an attribute name
  and an optional converter:
  - DP 1 is inverted occupancy: raw 0 gives `Alarm_1`, anything else gives 0.
  - DP 4 has no converter and goes to the battery percentage.
  - DPs 9 and 10 decode the `SensitivityLevel` and `OnTimeValues` enums.
  - DP 12 is the illuminance log scale.

  A second table routes exactly those ids to the generic handler; any other DP is ignored. Outbound
  attribute writes always carry `NO_MANUFACTURER_ID`. The vendor cluster's attribute table is a
  copy of the base table extended with two entries.
- **LUMI `lumi.motion.acn001`** (`lumi_motion_acn001.py`, module `LumiMotion`). The Opple cluster
  caches every report as received. Attribute 274 also fans out:
  - illuminance `measured_value` becomes report − 65536, with no clamping;
  - occupancy becomes `Occupied`, whatever the report.

Shared pieces:
- Module `Cluster` holds the endpoint: one attribute cache per cluster, indexed by the role the
  cluster plays. The source reaches these caches as `self.endpoint.<role>`.
- Its `Write` function is the attribute-update entry point. `Endpoint.UpdateAttribute` is the
  in-place method that performs it.
- Module `LittleEndian` holds the byte decoder and encoder.

Each device has two layers:
- Specification functions on the cache state: `ManufUpdate`, `VcpUpdate`, `DpToAttrUpdateSpec`, `Dispatch`,
  `OppleUpdate`. The lemmas are proved about these.
- Methods that update an `Endpoint` in place, in the order the source does. Each method's `ensures`
  ties the new state to the specification function.

Where the code leaves a case unchecked, the model states a precondition or a parameter:
- The code does no length check before decoding a VCP report. The model requires an 8-byte `data64`.
- zigpy's enum behaviour outside the declared domain is not visible. The model requires an in-domain
  code for DPs 9 and 10.
- The DP 12 converter does no rounding and no overflow check. Its nonzero branch is the parameter
  `logScale`. `math.log10` raises on a negative raw, so the model requires a non-negative one.
- DP 1 maps raw 0 to `Alarm_1` and any nonzero raw value to 0.

## Model

| member | source | states |
|---|---|---|
| `Cluster.Write` | TS0601_TZE200_bcusnqt8.py:66-72 | an attribute update sets the one attribute of the one cluster and leaves every other cluster and attribute as it was |
| `Cluster.Endpoint.UpdateAttribute` | TS0601_TZE200_bcusnqt8.py:68 | the in-place cache write of `_update_attribute` produces exactly the `Write` state |
| `Cluster.Endpoint.constructor` | TS0601_TZE200_bcusnqt8.py:157-173 | an endpoint binds one empty cache for each of the given cluster roles |
| `Cluster.Read` | TS0601_TZE200_bcusnqt8.py:59-64 | a local cluster reads a constant attribute from its constant table, otherwise from its cache, and reports unsupported when the id is in neither |
| `Cluster.WritesCommute` | lumi_motion_acn001.py:37-43 | writes to two different clusters give the same final state in either order |
| `LittleEndian.FromLittleEndian` | TS0601_TZE200_bcusnqt8.py:109-111 | an n-byte little-endian field is an unsigned value below 256^n |
| `LittleEndian.ToLittleEndian` | TS0601_TZE200_bcusnqt8.py:109-111 | encoding a value of width n gives n bytes |
| `LittleEndian.FromToLittleEndian` | TS0601_TZE200_bcusnqt8.py:109-111 | reading back the little-endian encoding of a value that fits gives the value |
| `LittleEndian.ToFromLittleEndian` | TS0601_TZE200_bcusnqt8.py:109-111 | re-encoding a decoded byte field at its width gives the same bytes |
| `Zemismart.ClampPhase` | TS0601_TZE200_bcusnqt8.py:105-107 | phases 0, 1 and 2 are used as given; a phase below 0 or above 2 becomes 0; the result always indexes the phase table |
| `Zemismart.DecodeVcp` | TS0601_TZE200_bcusnqt8.py:109-111 | power and current decoded from a data64 are below 2^24, voltage below 2^16 |
| `Zemismart.EncodeVcp` | TS0601_TZE200_bcusnqt8.py:109-111 | three readings within their widths pack into eight bytes |
| `Zemismart.DecodeEncodeVcp` | TS0601_TZE200_bcusnqt8.py:109-111 | decoding the packing of three readings gives them back |
| `Zemismart.EncodeDecodeVcp` | TS0601_TZE200_bcusnqt8.py:109-111 | re-packing the decoded power, current and voltage fields gives back the original 8 bytes |
| `Zemismart.ExampleFrame` | TS0601_TZE200_bcusnqt8.py:109-111 | bytes 10 00 00 64 00 00 E8 03 decode to power 16, current 100, voltage 1000 |
| `Zemismart.PhaseTriplesDisjoint` | TS0601_TZE200_bcusnqt8.py:79-102 | the three phase triples hold nine distinct attribute ids, none of them a constant attribute |
| `Zemismart.VcpUpdate` | TS0601_TZE200_bcusnqt8.py:105-115 | the state after `vcp_reported`: no cluster is added or removed, and only the electrical measurement cluster changes |
| `Zemismart.ManufUpdate` | TS0601_TZE200_bcusnqt8.py:38-49 | the state after the manufacturer cluster's `_update_attribute`: no cluster is added or removed, metering changes only for 0x0201 and 0x0202, electrical measurement only for 0x0006, 0x0007 and 0x0008 |
| `Zemismart.VcpUpdateEffect` | TS0601_TZE200_bcusnqt8.py:105-115 | a VCP report writes the decoded voltage, current and power to the clamped phase's triple and changes no other attribute of any cluster |
| `Zemismart.VcpOtherPhasesUnchanged` | TS0601_TZE200_bcusnqt8.py:86-115 | the attributes of the other two phases keep their values |
| `Zemismart.VcpReadBack` | TS0601_TZE200_bcusnqt8.py:79-115 | after a report, reading the phase attributes returns the decoded readings, because no constant shadows them |
| `Zemismart.ConstantReads` | TS0601_TZE200_bcusnqt8.py:59-84 | metering reads unit 0 (kWh) and divisor 100; electrical measurement reads voltage multiplier 1 / divisor 10 and current multiplier 1 / divisor 1000 |
| `Zemismart.ManufOwnCache` | TS0601_TZE200_bcusnqt8.py:38-39 | the manufacturer cluster's own cache always holds the raw value afterwards |
| `Zemismart.EnergyRouting` | TS0601_TZE200_bcusnqt8.py:40-72 | 0x0201 sets metering 0x0000 and 0x0202 sets 0x0001 to the unmodified value; apart from that and the vendor cache entry of the reported id, no attribute of any cluster changes |
| `Zemismart.VcpRouting` | TS0601_TZE200_bcusnqt8.py:44-49 | 0x0006, 0x0007 and 0x0008 report phases 0, 1 and 2; metering is unchanged |
| `Zemismart.OtherAttributesNotRouted` | TS0601_TZE200_bcusnqt8.py:38-49 | any other attribute id only updates the manufacturer cache; both sibling clusters are unchanged |
| `Zemismart.VcpIdempotent` | TS0601_TZE200_bcusnqt8.py:105-115 | reporting the same data64 for the same phase twice leaves the state of reporting it once |
| `Zemismart.ManufIdempotent` | TS0601_TZE200_bcusnqt8.py:38-49 | receiving the same vendor report twice leaves the state of receiving it once |
| `Zemismart.EnergyDeliverReported` | TS0601_TZE200_bcusnqt8.py:66-68 | the delivered summation takes the value as reported, nothing else changes |
| `Zemismart.EnergyReceiveReported` | TS0601_TZE200_bcusnqt8.py:70-72 | the received summation takes the value as reported, nothing else changes |
| `Zemismart.VcpReported` | TS0601_TZE200_bcusnqt8.py:105-115 | the clamp and the three successive writes produce the `VcpUpdate` state |
| `Zemismart.ManufUpdateAttribute` | TS0601_TZE200_bcusnqt8.py:38-49 | caching the raw value and then routing it produces the `ManufUpdate` state |
| `PirMotion.SensitivityLevelOf` | TS0601_TZE200_3towulqd.py:38-43 | codes 0, 1 and 2 decode to the level whose code they are |
| `PirMotion.OnTimeValuesOf` | TS0601_TZE200_3towulqd.py:46-52 | codes 0 to 3 decode to the on-time value whose code they are |
| `PirMotion.SensitivityRoundTrip` | TS0601_TZE200_3towulqd.py:79-83 | every sensitivity level decodes back from its own code |
| `PirMotion.OnTimeRoundTrip` | TS0601_TZE200_3towulqd.py:84-88 | every on-time value decodes back from its own code |
| `PirMotion.OccupancyFromDp` | TS0601_TZE200_3towulqd.py:70-74 | DP 1 gives `Alarm_1` exactly when raw is 0, and 0 exactly when raw is nonzero |
| `PirMotion.IlluminanceFromDp` | TS0601_TZE200_3towulqd.py:89-93 | DP 12 gives 0 for raw 0 and the log scale for a positive raw |
| `PirMotion.TablesAgree` | TS0601_TZE200_3towulqd.py:69-102 | the handler table and the mapping table have the same keys {1, 4, 9, 10, 12}, every handler is `_dp_2_attr_update`, and every target resolves on the endpoint |
| `PirMotion.Target` | TS0601_TZE200_3towulqd.py:69-94 | every mapped DP targets a cluster role the endpoint binds |
| `PirMotion.DpToAttrUpdateSpec` | TS0601_TZE200_3towulqd.py:69-94 | the state after `_dp_2_attr_update` for a mapped DP: no cluster is added or removed, and only the target cluster changes |
| `PirMotion.Dispatch` | TS0601_TZE200_3towulqd.py:96-102 | the state after the MCU cluster dispatches a DP: no cluster is added or removed, and a mapped DP changes only its target cluster |
| `PirMotion.UnknownDpIgnored` | TS0601_TZE200_3towulqd.py:96-102 | a DP id outside {1, 4, 9, 10, 12} has no handler and changes nothing |
| `PirMotion.DispatchFrame` | TS0601_TZE200_3towulqd.py:69-102 | a handled DP sets its target attribute to its mapping's converter applied to the raw value (the raw value itself when there is none) and changes no other attribute of any cluster |
| `PirMotion.OccupancyDp` | TS0601_TZE200_3towulqd.py:70-74 | after DP 1 the occupancy attribute is `Alarm_1` if and only if raw is 0, and 0 if and only if raw is nonzero |
| `PirMotion.BatteryDp` | TS0601_TZE200_3towulqd.py:75-78 | DP 4 writes the raw value unchanged to `battery_percentage_remaining` |
| `PirMotion.EnumDps` | TS0601_TZE200_3towulqd.py:79-88 | DPs 9 and 10 store on the manufacturer cluster the code of the decoded enum, which equals the in-domain raw code |
| `PirMotion.IlluminanceDpNonzero` | TS0601_TZE200_3towulqd.py:89-93 | DP 12 with a positive raw value sets `measured_value` to the log scale of it |
| `PirMotion.IlluminanceDpZero` | TS0601_TZE200_3towulqd.py:89-93 | DP 12 with raw 0 sets `measured_value` to 0 |
| `PirMotion.DispatchIdempotent` | TS0601_TZE200_3towulqd.py:69-102 | dispatching the same data point twice leaves the state of dispatching it once |
| `PirMotion.BatteryReads` | TS0601_TZE200_3towulqd.py:112-121 | the battery cluster reads size 9 (CR2450) and quantity 1, and the DP 4 percentage is readable |
| `PirMotion.WriteAttributes` | TS0601_TZE200_3towulqd.py:62-67 | the attributes are forwarded unchanged with `NO_MANUFACTURER_ID` |
| `PirMotion.WriteIgnoresManufacturer` | TS0601_TZE200_3towulqd.py:62-67 | the caller's manufacturer argument does not affect the forwarded write, and the header carries no valid 16-bit code |
| `PirMotion.AttributeTable.Copy` | TS0601_TZE200_3towulqd.py:58 | a copy is a fresh table with the same entries |
| `PirMotion.AttributeTable.Update` | TS0601_TZE200_3towulqd.py:59-60 | an update adds or replaces one entry in place |
| `PirMotion.PirAttributes` | TS0601_TZE200_3towulqd.py:58-60 | the cluster's table is the base table plus 0xEF09 `sensitivity_level` and 0xEF0A `keep_time`; the base table is unchanged |
| `PirMotion.DpToAttrUpdateMethod` | TS0601_TZE200_3towulqd.py:69-94 | looking up the mapping, converting and writing the target gives the specified state |
| `PirMotion.HandleDataPoint` | TS0601_TZE200_3towulqd.py:96-102 | dispatching through the handler table gives the `Dispatch` state |
| `LumiMotion.IlluminanceOf` | lumi_motion_acn001.py:36 | the illuminance plus 65536 is the report |
| `LumiMotion.OppleUpdate` | lumi_motion_acn001.py:33-43 | the state after `OppleCluster._update_attribute`: no cluster is added or removed, and only the Opple, illuminance and occupancy clusters can change |
| `LumiMotion.OwnCacheRaw` | lumi_motion_acn001.py:33-34 | every report is cached by the Opple cluster unshifted |
| `LumiMotion.MotionFanOut` | lumi_motion_acn001.py:35-43 | attribute 274 sets illuminance to the report − 65536 and occupancy to `Occupied` for every report; nothing else changes |
| `LumiMotion.OtherAttributesNotRouted` | lumi_motion_acn001.py:35 | any other attribute is exactly the base class's own-cache write, so illuminance, occupancy and the Opple cache's other attributes are unchanged |
| `LumiMotion.FanOutOrderFree` | lumi_motion_acn001.py:37-43 | the final state does not depend on the order of the two fan-out writes |
| `LumiMotion.OppleIdempotent` | lumi_motion_acn001.py:33-43 | receiving the same report twice leaves the state of receiving it once |
| `LumiMotion.OppleUpdateAttribute` | lumi_motion_acn001.py:33-43 | the in-place cache write and fan-out produce the `OppleUpdate` state |

## Left out

- Device signatures and replacement tables (`CustomDevice` subclasses, `MODELS_INFO`, endpoint and cluster id lists) are declarative metadata with no behaviour. Each device module keeps only the set of roles its update code reaches.
- LumiMotion.OppleUpdate assumes illuminance and occupancy clusters on the endpoint. The replacement signature of `lumi_motion_acn001.py` (lines 87-93) binds neither of them. There, a motion report would be cached and then fail to find `self.endpoint.illuminance`. The model does not capture that failure.
- `TS0203_TZ3000_2mbfxlzr.py` and `TS0207_TZ3000_85czd6fy.py` hold only a battery constant table (`TuyaBatteryConfiguration._CONSTANT_ATTRIBUTES`) and device signatures. `TS0202_TZ3000_otvn3lne.py` also declares the two enums and extends a copy of `IasZone.attributes` (lines 28-50), the pattern `PirMotion.PirAttributes` models.
- PirMotion.IlluminanceFromDp: the nonzero branch `10000 * log10(x) + 1` is floating point. It is the parameter `logScale`; only the zero case is fixed. For a nonzero raw the source caches a float, where the model caches the integer `logScale(raw)`. For a negative raw `math.log10` raises `ValueError` and nothing is written; the model excludes that input (`InDomain`) and does not capture the error.
- The float constants `MIN_VOLTS`/`MAX_VOLTS` are not modelled.
- Library code that is not part of this model is reduced to a simple contract: "overwrite the target attribute in the cluster's cache". This covers `_update_attribute`/`update_attribute`, `XiaomiAqaraE1Cluster._update_attribute` and `TuyaMCUCluster._dp_2_attr_update`.
- The read path of `LocalDataCluster`/`TuyaLocalCluster` is reduced to `Cluster.Read`: constants first, then the cache.
- The report and listener side effects of an attribute update are not modelled.
- PirMotion.AttributeId resolves only the attribute names the DP table uses. The full attribute registries of the standard clusters and the base `TuyaMCUCluster.attributes` are not part of this model. `PirAttributes` takes the base table as input.
- PirMotion.HandleDataPoint requires an in-domain code for DPs 9 and 10, because zigpy's enum behaviour on other codes is not visible, and a non-negative raw for DP 12, because the converter raises on a negative one.
- Zemismart.VcpReported requires an 8-byte `data64`; the code performs no length check.
- Cached values are unbounded integers, as in the Python caches. The model does not narrow them to the declared ZCL width (for example a negative `measured_value` after the −65536 shift).
- The async transport behind `write_attributes` is not modelled; `WriteAttributes` returns the request it would forward.
- Also not modelled: the `MotionCluster` occupancy reset timer (`reset_s = 30`), the motion `Bus`, logging, and the `battery_size`/`battery_quantity` bookkeeping of the LUMI device.
