/**
 LUMI `lumi.motion.acn001`. The Opple (Aqara E1) manufacturer cluster caches
 every report as received; the motion report, attribute 274, also carries the
 illuminance offset by 65536, and fans out to the Illuminance Measurement and
 Occupancy Sensing clusters of the same endpoint.
 */
module LumiMotion {
  import opened Cluster

  const MOTION_ATTRIBUTE := 274
  const ILLUMINANCE_OFFSET := 65536

  const OCCUPIED := 0x01              // Occupancy Sensing: Occupancy.Occupied

  /**
   The roles the Opple cluster reaches on its endpoint: itself, and the
   illuminance and occupancy clusters it fans out to. The device's
   replacement signature binds no illuminance or occupancy cluster; this
   model assumes both are present.
   */
  const MotionRoles: set<Role> := {Manufacturer, Illuminance, Occupancy}

  /** The motion report is an integer. */
  predicate WellTyped(attrid: int, value: Value) {
    attrid == MOTION_ATTRIBUTE ==> value.Int?
  }

  /** The illuminance carried by a motion report; not clamped to the attribute's range. */
  function IlluminanceOf(report: int): (lux: int)
    ensures lux + ILLUMINANCE_OFFSET == report
  {
    report - ILLUMINANCE_OFFSET
  }

  /** The state after `OppleCluster._update_attribute(attrid, value)`. */
  function OppleUpdate(cs: Clusters, attrid: int, value: Value): (r: Clusters)
    requires Bound(cs, MotionRoles) && WellTyped(attrid, value)
    ensures r.Keys == cs.Keys
    ensures forall role :: role in cs && role !in MotionRoles ==> r[role] == cs[role]
  {
    var own := Write(cs, Manufacturer, attrid, value);
    if attrid == MOTION_ATTRIBUTE then
      var lit := Write(own, Illuminance, MEASURED_VALUE_ID, Int(IlluminanceOf(value.n)));
      Write(lit, Occupancy, OCCUPANCY_ID, Int(OCCUPIED))
    else own
  }

  /** Every report is cached by the Opple cluster as received. */
  lemma {:induction false} OwnCacheRaw(cs: Clusters, attrid: int, value: Value)
    requires Bound(cs, MotionRoles) && WellTyped(attrid, value)
    ensures OppleUpdate(cs, attrid, value).Keys == cs.Keys
    ensures Get(OppleUpdate(cs, attrid, value), Manufacturer, attrid) == Some(value)
  {
  }

  /**
   A motion report sets illuminance to the report minus 65536 and occupancy
   to Occupied, whatever the report, and changes no other attribute.
   */
  lemma {:induction false} MotionFanOut(cs: Clusters, report: int)
    requires Bound(cs, MotionRoles)
    ensures var r := OppleUpdate(cs, MOTION_ATTRIBUTE, Int(report));
            && Get(r, Illuminance, MEASURED_VALUE_ID) == Some(Int(IlluminanceOf(report)))
            && Get(r, Occupancy, OCCUPANCY_ID) == Some(Int(OCCUPIED))
            && forall role, k ::
                 !((role == Manufacturer && k == MOTION_ATTRIBUTE)
                   || (role == Illuminance && k == MEASURED_VALUE_ID)
                   || (role == Occupancy && k == OCCUPANCY_ID)) ==>
                 Get(r, role, k) == Get(cs, role, k)
  {
  }

  /** Any other attribute is only cached by the Opple cluster; illuminance and occupancy are untouched. */
  lemma {:induction false} OtherAttributesNotRouted(cs: Clusters, attrid: int, value: Value)
    requires Bound(cs, MotionRoles) && attrid != MOTION_ATTRIBUTE
    ensures OppleUpdate(cs, attrid, value) == Write(cs, Manufacturer, attrid, value)
    ensures OppleUpdate(cs, attrid, value)[Illuminance] == cs[Illuminance]
    ensures OppleUpdate(cs, attrid, value)[Occupancy] == cs[Occupancy]
  {
  }

  /** The two fan-out writes target different clusters, so their order does not matter. */
  lemma {:induction false} FanOutOrderFree(cs: Clusters, report: int)
    requires Bound(cs, MotionRoles)
    ensures var own := Write(cs, Manufacturer, MOTION_ATTRIBUTE, Int(report));
            var occupied := Write(own, Occupancy, OCCUPANCY_ID, Int(OCCUPIED));
            OppleUpdate(cs, MOTION_ATTRIBUTE, Int(report))
              == Write(occupied, Illuminance, MEASURED_VALUE_ID, Int(IlluminanceOf(report)))
  {
    var own := Write(cs, Manufacturer, MOTION_ATTRIBUTE, Int(report));
    WritesCommute(own, Illuminance, MEASURED_VALUE_ID, Int(IlluminanceOf(report)), Occupancy, OCCUPANCY_ID, Int(OCCUPIED));
  }

  /** Receiving the same report twice leaves the state of receiving it once. */
  lemma {:induction false} OppleIdempotent(cs: Clusters, attrid: int, value: Value)
    requires Bound(cs, MotionRoles) && WellTyped(attrid, value)
    ensures var once := OppleUpdate(cs, attrid, value);
            Bound(once, MotionRoles) && OppleUpdate(once, attrid, value) == once
  {
    var once := OppleUpdate(cs, attrid, value);
    OwnCacheRaw(cs, attrid, value);
    WriteSame(once, Manufacturer, attrid, value);
    if attrid == MOTION_ATTRIBUTE {
      MotionFanOut(cs, value.n);
      WriteSame(once, Illuminance, MEASURED_VALUE_ID, Int(IlluminanceOf(value.n)));
      WriteSame(once, Occupancy, OCCUPANCY_ID, Int(OCCUPIED));
    }
  }

  /** `OppleCluster._update_attribute`: cache the report, then fan a motion report out. */
  method OppleUpdateAttribute(ep: Endpoint, attrid: int, value: Value)
    requires Bound(ep.clusters, MotionRoles) && WellTyped(attrid, value)
    modifies ep
    ensures ep.clusters == OppleUpdate(old(ep.clusters), attrid, value)
  {
    ep.UpdateAttribute(Manufacturer, attrid, value);
    if attrid == MOTION_ATTRIBUTE {
      var lux := IlluminanceOf(value.n);
      ep.UpdateAttribute(Illuminance, MEASURED_VALUE_ID, Int(lux));
      ep.UpdateAttribute(Occupancy, OCCUPANCY_ID, Int(OCCUPIED));
    }
  }
}
