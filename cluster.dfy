/**
 The attribute state shared by the three quirks: every cluster on an endpoint
 keeps a cache from attribute id to the last value reported for it, and a
 quirk reaches a sibling cluster by its role on the endpoint (the
 `self.endpoint.<role>` lookups of the source), never by a direct reference.
 */
module Cluster {

  datatype Option<+T> = None | Some(value: T)

  /** A cached attribute value: an integer, or a fixed-length byte list such as `data64`. */
  datatype Value = Int(n: int) | Bytes(b: seq<int>)

  /** The capability under which a cluster instance is bound on its endpoint. */
  datatype Role =
    | Manufacturer           // the vendor cluster that receives the proprietary reports
    | Metering               // smartenergy_metering
    | ElectricalMeasurement  // electrical_measurement
    | Occupancy              // occupancy
    | Illuminance            // illuminance
    | PowerConfiguration     // power

  // Standard attribute ids shared by the quirks.
  const OCCUPANCY_ID := 0x0000       // Occupancy Sensing: occupancy
  const MEASURED_VALUE_ID := 0x0000  // Illuminance Measurement: measured_value

  type Cache = map<int, Value>

  type Clusters = map<Role, Cache>

  /** Every role in `roles` has a cluster instance on the endpoint. */
  predicate Bound(cs: Clusters, roles: set<Role>) {
    roles <= cs.Keys
  }

  /** The value cached for `id` in the cluster playing `role`, if any. */
  function Get(cs: Clusters, role: Role, id: int): Option<Value> {
    if role in cs && id in cs[role] then Some(cs[role][id]) else None
  }

  /**
   The attribute-update entry point of one cluster: overwrite the cached value
   of `id` in the cluster playing `role`; every other cluster and every other
   attribute keeps its value.
   */
  function Write(cs: Clusters, role: Role, id: int, v: Value): (r: Clusters)
    requires role in cs
    ensures r.Keys == cs.Keys
    ensures r[role].Keys == cs[role].Keys + {id}
    ensures Get(r, role, id) == Some(v)
    ensures forall other, k :: (other != role || k != id) ==> Get(r, other, k) == Get(cs, other, k)
  {
    cs[role := cs[role][id := v]]
  }

  /**
   The read path of a local cluster: a construction-time constant wins over
   the cache, and an attribute found in neither is unsupported.
   */
  function Read(constants: map<int, int>, cache: Cache, id: int): (r: Option<Value>)
    ensures id in constants ==> r == Some(Int(constants[id]))
    ensures id !in constants && id in cache ==> r == Some(cache[id])
    ensures r == None <==> id !in constants && id !in cache
  {
    if id in constants then Some(Int(constants[id]))
    else if id in cache then Some(cache[id])
    else None
  }

  /** Two states that agree on every attribute of every cluster are equal. */
  lemma {:induction false} SameEverywhere(a: Clusters, b: Clusters)
    requires a.Keys == b.Keys
    requires forall role :: role in a ==> a[role].Keys == b[role].Keys
    requires forall role, k :: Get(a, role, k) == Get(b, role, k)
    ensures a == b
  {
    forall role | role in a
      ensures a[role] == b[role]
    {
      forall k | k in a[role]
        ensures a[role][k] == b[role][k]
      {
        assert Get(a, role, k) == Get(b, role, k);
      }
    }
  }

  /** Writing the value an attribute already holds changes nothing. */
  lemma WriteSame(cs: Clusters, role: Role, id: int, v: Value)
    requires Get(cs, role, id) == Some(v)
    ensures Write(cs, role, id, v) == cs
  {
    assert cs[role][id := v] == cs[role];
  }

  /** Writes to two different clusters can be made in either order. */
  lemma {:induction false} WritesCommute(cs: Clusters, r1: Role, id1: int, v1: Value, r2: Role, id2: int, v2: Value)
    requires r1 in cs && r2 in cs && r1 != r2
    ensures Write(Write(cs, r1, id1, v1), r2, id2, v2) == Write(Write(cs, r2, id2, v2), r1, id1, v1)
  {
  }

  /** The endpoint: the caches of its cluster instances, indexed by role. */
  class Endpoint {
    var clusters: Clusters

    /** An endpoint whose clusters for `roles` start with empty caches. */
    constructor (roles: set<Role>)
      ensures clusters.Keys == roles
      ensures forall role :: role in roles ==> clusters[role] == map[]
    {
      clusters := map role | role in roles :: map[];
    }

    /** `_update_attribute` of the cluster playing `role`. */
    method UpdateAttribute(role: Role, id: int, v: Value)
      requires role in clusters
      modifies this
      ensures clusters == Write(old(clusters), role, id, v)
    {
      clusters := clusters[role := clusters[role][id := v]];
    }
  }
}
