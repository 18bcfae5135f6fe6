/**
 * The load-record generation of prepare_load_samples.py: every resource is given one meter of
 * the meter file, and one load record is made for each load component of the first meter in
 * the file.
 */
module PrepareLoadSamples {
  import opened Wrappers
  import opened Strings

  /** The display names of the known load components. */
  const LoadNames: map<string, string> := map[
    "load_0" := "Base Load",
    "load_1" := "Water Heater",
    "load_2" := "HVAC",
    "load_3" := "Kitchen Appliances",
    "load_4" := "Lighting",
    "load_5" := "Other Appliances"]

  /** `LOAD_NAMES.get(component, f"Load {component}")`. */
  function LoadName(component: string): (name: string)
  {
    if component in LoadNames then LoadNames[component] else "Load " + component
  }

  /** A load's name starts with "Load " exactly when its component has no display name, and
      the name determines the component. */
  lemma LoadNameIdentifies(a: string, b: string)
    ensures a in LoadNames <==> !StartsWith(LoadName(a), "Load ")
    ensures a !in LoadNames ==> LoadName(a)[5..] == a
    ensures LoadName(a) == LoadName(b) ==> a == b
  {
    assert !StartsWith("Base Load", "Load ") by { assert "Base Load"[..5][0] != "Load "[0]; }
    assert !StartsWith("Water Heater", "Load ") by { assert "Water Heater"[..5] != "Load "; }
    assert !StartsWith("HVAC", "Load ");
    assert !StartsWith("Kitchen Appliances", "Load ") by { assert "Kitchen Appliances"[..5] != "Load "; }
    assert !StartsWith("Lighting", "Load ") by { assert "Lighting"[..5][1] != "Load "[1]; }
    assert !StartsWith("Other Appliances", "Load ") by { assert "Other Appliances"[..5] != "Load "; }
    if a !in LoadNames {
      assert ("Load " + a)[..5] == "Load ";
    }
    if b !in LoadNames {
      assert ("Load " + b)[..5] == "Load ";
    }
    if a !in LoadNames && b !in LoadNames && LoadName(a) == LoadName(b) {
      assert ("Load " + a)[5..] == a;
      assert ("Load " + b)[5..] == b;
    }
  }

  /** The keys of a meter that name load components, in their original order. */
  function LoadKeys(keys: seq<string>): (ks: seq<string>)
    ensures forall k :: k in ks <==> k in keys && StartsWith(k, "load_")
    decreases |keys|
  {
    if keys == [] then []
    else if StartsWith(keys[0], "load_") then [keys[0]] + LoadKeys(keys[1..])
    else LoadKeys(keys[1..])
  }

  /** `sorted(k for k in first_meter.keys() if k.startswith('load_'))`. */
  function LoadComponents(keys: seq<string>): (cs: seq<string>)
    ensures Sorted(cs)
    ensures multiset(cs) == multiset(LoadKeys(keys))
    ensures forall k :: k in cs <==> k in keys && StartsWith(k, "load_")
  {
    var cs := Sort(LoadKeys(keys));
    assert forall k :: k in cs <==> k in multiset(LoadKeys(keys));
    cs
  }

  /** One row of the loads table: `(load_id, resource_id, load_component, load_name,
      h5_meter_id, vtn_resource_id)`. */
  datatype LoadRecord = LoadRecord(loadId: string, resourceId: string, component: string,
                                   loadName: string, h5MeterId: string, vtnResourceId: Option<string>)

  /** `rec` is the record of `component` for a resource fed by `meter`, whatever its id. */
  predicate RecordFor(rec: LoadRecord, resourceId: string, component: string, meter: string) {
    rec.resourceId == resourceId && rec.component == component
    && rec.loadName == LoadName(component) && rec.h5MeterId == meter && rec.vtnResourceId.None?
  }

  /** The total length of some strings: a string longer than that is none of them. */
  function TotalLength(ids: seq<string>): (n: nat)
    ensures forall k :: 0 <= k < |ids| ==> |ids[k]| <= n
    decreases |ids|
  {
    if ids == [] then 0 else |ids[0]| + TotalLength(ids[1..])
  }

  /** `uuid.uuid4()` is modelled as any string not yet used in the batch; one always exists. */
  lemma FreshIdExists(used: seq<string>)
    ensures exists id: string :: id !in used
  {
    var id := seq(TotalLength(used) + 1, _ => 'a');
    assert id !in used;
  }

  /** No two records share a load id. */
  predicate DistinctIds(loads: seq<LoadRecord>) {
    forall a, b :: 0 <= a < b < |loads| ==> loads[a].loadId != loads[b].loadId
  }

  function LoadIds(loads: seq<LoadRecord>): (ids: seq<string>)
    ensures |ids| == |loads| && forall k :: 0 <= k < |loads| ==> ids[k] == loads[k].loadId
  {
    seq(|loads|, k requires 0 <= k < |loads| => loads[k].loadId)
  }

  /** The inner loop: one record per component, appended in component order, each with an id
      not used before in the batch. */
  method CreateLoadRecords(loads: seq<LoadRecord>, resourceId: string, comps: seq<string>, meter: string)
    returns (out: seq<LoadRecord>)
    requires DistinctIds(loads)
    ensures |out| == |loads| + |comps| && out[..|loads|] == loads && DistinctIds(out)
    ensures forall c :: 0 <= c < |comps| ==> RecordFor(out[|loads| + c], resourceId, comps[c], meter)
  {
    out := loads;
    for j := 0 to |comps|
      invariant |out| == |loads| + j && out[..|loads|] == loads && DistinctIds(out)
      invariant forall c :: 0 <= c < j ==> RecordFor(out[|loads| + c], resourceId, comps[c], meter)
    {
      FreshIdExists(LoadIds(out));
      var id :| id !in LoadIds(out);
      out := out + [LoadRecord(id, resourceId, comps[j], LoadName(comps[j]), meter, None)];
    }
  }

  /** Records `i * m .. i * m + m` of `loads` are those of the `i`-th resource. */
  predicate BlockFor(loads: seq<LoadRecord>, i: nat, m: nat, resourceId: string, comps: seq<string>, meter: string)
    requires |comps| == m
  {
    (i + 1) * m <= |loads| && forall j :: 0 <= j < m ==> RecordFor(loads[i * m + j], resourceId, comps[j], meter)
  }

  /**
   * The assign-and-create loop of `generate_resource_loads`. With no meter the source fails
   * when it reads the first meter; otherwise each resource gets one meter of the pool, and the
   * records are laid out resource by resource, one per load component in sorted order.
   * `firstMeterKeys` stands for the keys of the first meter's group in the file; nothing here
   * ties it to `meters[0]`.
   */
  method GenerateResourceLoads(meters: seq<string>, firstMeterKeys: seq<string>, resourceIds: seq<string>)
    returns (ok: bool, meterOf: seq<string>, loads: seq<LoadRecord>)
    ensures ok <==> meters != []
    ensures !ok ==> meterOf == [] && loads == []
    ensures ok ==> |meterOf| == |resourceIds| && forall i :: 0 <= i < |meterOf| ==> meterOf[i] in meters
    ensures ok ==> |loads| == |resourceIds| * |LoadComponents(firstMeterKeys)|
    ensures ok ==> forall i :: 0 <= i < |resourceIds| ==>
      BlockFor(loads, i, |LoadComponents(firstMeterKeys)|, resourceIds[i], LoadComponents(firstMeterKeys), meterOf[i])
    ensures DistinctIds(loads)
  {
    meterOf := [];
    loads := [];
    if meters == [] {
      return false, meterOf, loads;
    }
    ok := true;
    var comps := LoadComponents(firstMeterKeys);
    var m := |comps|;
    for i := 0 to |resourceIds|
      invariant |meterOf| == i && forall a :: 0 <= a < i ==> meterOf[a] in meters
      invariant |loads| == i * m && DistinctIds(loads)
      invariant forall a :: 0 <= a < i ==> BlockFor(loads, a, m, resourceIds[a], comps, meterOf[a])
    {
      assert meters[0] in meters;
      var meter :| meter in meters;
      var next := CreateLoadRecords(loads, resourceIds[i], comps, meter);
      NewBlock(loads, next, i, m, resourceIds[i], comps, meter);
      ghost var prev, prevMeters := loads, meterOf;
      loads := next;
      meterOf := meterOf + [meter];
      forall a | 0 <= a < i + 1 ensures BlockFor(loads, a, m, resourceIds[a], comps, meterOf[a]) {
        if a < i {
          BlockKept(prev, next, a, m, resourceIds[a], comps, prevMeters[a]);
        }
      }
    }
  }

  /** Appending records keeps every complete block before the end. */
  lemma BlockKept(loads: seq<LoadRecord>, next: seq<LoadRecord>, a: nat, m: nat,
                  resourceId: string, comps: seq<string>, meter: string)
    requires |comps| == m && |loads| <= |next| && next[..|loads|] == loads
    requires BlockFor(loads, a, m, resourceId, comps, meter)
    ensures BlockFor(next, a, m, resourceId, comps, meter)
  {
    forall j | 0 <= j < m ensures RecordFor(next[a * m + j], resourceId, comps[j], meter) {
      assert a * m + j < (a + 1) * m;
      assert next[..|loads|][a * m + j] == loads[a * m + j];
    }
  }

  /** The records appended after `i` complete blocks form block `i`. */
  lemma NewBlock(loads: seq<LoadRecord>, next: seq<LoadRecord>, i: nat, m: nat,
                 resourceId: string, comps: seq<string>, meter: string)
    requires |comps| == m && |loads| == i * m && |next| == |loads| + m
    requires forall c :: 0 <= c < m ==> RecordFor(next[|loads| + c], resourceId, comps[c], meter)
    ensures |next| == (i + 1) * m
    ensures BlockFor(next, i, m, resourceId, comps, meter)
  {
  }
}
