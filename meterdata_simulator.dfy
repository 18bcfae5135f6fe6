/**
 * The meter-data simulator of venclient/simulation/meterdata_simulator.py: it loads the
 * resources of some VENs from the resource catalog, sorts them into PENDING, APPROVED and
 * SUSPENDED buckets, gives approved resources a meter of the reading source, moves resources
 * between buckets, reports counts, and reads one reading per load component at a cyclic cursor.
 */
module MeterdataSimulator {
  import opened Wrappers
  import opened Strings
  import opened FlexResources

  /** `MeterReading`: one reading of one load component, its timestamp in milliseconds. */
  datatype MeterReading = MeterReading(timestamp: int, loadId: string, powerW: real)

  /** `ResourceMeterData`: the readings of one resource at one cursor position. */
  datatype ResourceMeterData = ResourceMeterData(resourceId: string, meterPointId: string,
                                                 readings: seq<MeterReading>)

  /** One row of a load's power series: a timestamp in seconds and a power in watts. */
  datatype Sample = Sample(seconds: int, powerW: real)

  /** One meter of the reading source: its `num_load_components` attribute when it has one,
      and the power series of each of its load groups. */
  datatype MeterGroup = MeterGroup(numLoadComponents: Option<int>, loads: map<string, seq<Sample>>)

  /** The three registration statuses the simulator keeps a bucket for. */
  datatype Status = Pending | Approved | Suspended {
    function Name(): string {
      match this
      case Pending => "PENDING"
      case Approved => "APPROVED"
      case Suspended => "SUSPENDED"
    }
  }

  /** The bucket a status string names, if it names one. */
  function ParseStatus(s: string): (r: Option<Status>)
    ensures r.Some? ==> r.value.Name() == s
  {
    if s == "PENDING" then Some(Pending)
    else if s == "APPROVED" then Some(Approved)
    else if s == "SUSPENDED" then Some(Suspended)
    else None
  }

  /** Every status is parsed back from its name, so the names are distinct. */
  lemma StatusRoundTrip()
    ensures forall st: Status :: ParseStatus(st.Name()) == Some(st)
  {
  }

  // ---------------------------------------------------------------------------------------
  // The cyclic cursor
  // ---------------------------------------------------------------------------------------

  /** The cursor after one step over a series of `len` rows: one further, or back to 0 at the end. */
  function NextIndex(i: nat, len: nat): (j: nat)
  {
    if i + 1 >= len then 0 else i + 1
  }

  /** The cursor after `k` steps. */
  function Advance(i: nat, len: nat, k: nat): (j: nat)
    decreases k
  {
    if k == 0 then i else NextIndex(Advance(i, len, k - 1), len)
  }

  /** Inside a non-empty series a step stays inside it. */
  lemma NextIndexInRange(i: nat, len: nat)
    requires len > 0
    ensures NextIndex(i, len) < len
  {
  }

  /** `a` steps and then `b` steps are `a + b` steps. */
  lemma {:induction false} AdvanceCompose(i: nat, len: nat, a: nat, b: nat)
    ensures Advance(i, len, a + b) == Advance(Advance(i, len, a), len, b)
    decreases b
  {
    if b > 0 {
      AdvanceCompose(i, len, a, b - 1);
    }
  }

  /** Before the end of the series the cursor just moves forward. */
  lemma {:induction false} AdvanceForward(i: nat, len: nat, k: nat)
    requires i + k < len
    ensures Advance(i, len, k) == i + k
    decreases k
  {
    if k > 0 {
      AdvanceForward(i, len, k - 1);
    }
  }

  /** `len` steps bring the cursor back to where it started: it runs to the last row, wraps to
      0 and runs forward again. */
  lemma AdvanceCycle(i: nat, len: nat)
    requires i < len
    ensures Advance(i, len, len) == i
  {
    AdvanceForward(i, len, len - i - 1);
    assert Advance(i, len, len - i) == 0;
    AdvanceForward(0, len, i);
    AdvanceCompose(i, len, len - i, i);
  }

  // ---------------------------------------------------------------------------------------
  // Readings
  // ---------------------------------------------------------------------------------------

  /** `f'load_{k}'`. */
  function LoadKey(k: nat): (key: string)
    ensures StartsWith(key, "load_")
  {
    "load_" + Decimal(k)
  }

  /** Different components have different keys. */
  lemma LoadKeyInjective(a: nat, b: nat)
    ensures LoadKey(a) == LoadKey(b) ==> a == b
  {
    if LoadKey(a) == LoadKey(b) {
      assert LoadKey(a)[5..] == Decimal(a);
      assert LoadKey(b)[5..] == Decimal(b);
      DecimalRoundTrip(a);
      DecimalRoundTrip(b);
    }
  }

  /** `f"meter_{meter_point_id}"`. */
  function MeterKey(meterPointId: string): string {
    "meter_" + meterPointId
  }

  /** `meter_group.attrs.get('num_load_components', 6)`. */
  function NumLoads(g: MeterGroup): int {
    g.numLoadComponents.GetOr(6)
  }

  /** Load `k` of the meter has a row at the cursor. */
  predicate Present(g: MeterGroup, k: nat, index: nat) {
    LoadKey(k) in g.loads && index < |g.loads[LoadKey(k)]|
  }

  /** The reading of load `k` at the cursor: its timestamp scaled to milliseconds. */
  function ReadingAt(g: MeterGroup, k: nat, index: nat): (r: MeterReading)
    requires Present(g, k, index)
  {
    var row := g.loads[LoadKey(k)][index];
    MeterReading(row.seconds * 1000, LoadKey(k), row.powerW)
  }

  /** The readings of loads `0 .. k-1` at the cursor, skipping loads that are missing or whose
      series is too short. */
  function ReadingsUpTo(g: MeterGroup, k: nat, index: nat): (rs: seq<MeterReading>)
    decreases k
  {
    if k == 0 then []
    else ReadingsUpTo(g, k - 1, index) + (if Present(g, k - 1, index) then [ReadingAt(g, k - 1, index)] else [])
  }

  /** The readings of one meter at the cursor: `range(num_loads)` is empty for a count below 1. */
  function Readings(g: MeterGroup, index: nat): (rs: seq<MeterReading>)
  {
    ReadingsUpTo(g, if NumLoads(g) > 0 then NumLoads(g) else 0, index)
  }

  /** `r` is the reading of load `k` of the meter at the cursor. */
  predicate ReadingOf(g: MeterGroup, k: nat, index: nat, r: MeterReading) {
    Present(g, k, index) && r == ReadingAt(g, k, index)
  }

  /** `r` is the reading at the cursor of one of the loads `0 .. k-1`. */
  ghost predicate FromLoadBelow(g: MeterGroup, k: nat, index: nat, r: MeterReading) {
    exists j: nat :: j < k && ReadingOf(g, j, index, r)
  }

  /** The readings up to `k` are exactly one per present load among the first `k`, each for a
      different load. */
  lemma {:induction false} ReadingsShape(g: MeterGroup, k: nat, index: nat)
    ensures |ReadingsUpTo(g, k, index)| <= k
    ensures forall p :: 0 <= p < |ReadingsUpTo(g, k, index)| ==> FromLoadBelow(g, k, index, ReadingsUpTo(g, k, index)[p])
    ensures forall j: nat :: j < k && Present(g, j, index) ==> ReadingAt(g, j, index) in ReadingsUpTo(g, k, index)
    ensures forall p, q :: 0 <= p < q < |ReadingsUpTo(g, k, index)| ==>
      ReadingsUpTo(g, k, index)[p].loadId != ReadingsUpTo(g, k, index)[q].loadId
    decreases k
  {
    if k > 0 {
      ReadingsShape(g, k - 1, index);
      var prev := ReadingsUpTo(g, k - 1, index);
      var rs := ReadingsUpTo(g, k, index);
      forall p | 0 <= p < |prev| ensures FromLoadBelow(g, k, index, prev[p]) {
        var j: nat :| j < k - 1 && ReadingOf(g, j, index, prev[p]);
      }
      if Present(g, k - 1, index) {
        assert rs == prev + [ReadingAt(g, k - 1, index)];
        assert ReadingOf(g, k - 1, index, rs[|prev|]);
        forall p | 0 <= p < |prev| ensures prev[p].loadId != LoadKey(k - 1) {
          var j: nat :| j < k - 1 && ReadingOf(g, j, index, prev[p]);
          LoadKeyInjective(j, k - 1);
        }
      } else {
        assert rs == prev;
      }
    }
  }

  /** What `collect_next_metering` reports for one approved resource: nothing when its meter is
      not in the source or has no reading at the cursor. */
  function SnapshotOf(id: string, res: Resource, source: map<string, MeterGroup>, index: nat): (d: Option<ResourceMeterData>)
    ensures d.Some? ==> d.value.resourceId == id && d.value.meterPointId == res.meterPointId
    ensures d.Some? <==> MeterKey(res.meterPointId) in source && Readings(source[MeterKey(res.meterPointId)], index) != []
    ensures d.Some? ==> d.value.readings == Readings(source[MeterKey(res.meterPointId)], index)
  {
    var key := MeterKey(res.meterPointId);
    if key !in source then None
    else
      var rs := Readings(source[key], index);
      if rs == [] then None else Some(ResourceMeterData(id, res.meterPointId, rs))
  }

  /** The inner loop of `collect_next_metering`: the readings of one meter at the cursor. */
  method ReadMeter(g: MeterGroup, index: nat) returns (readings: seq<MeterReading>)
    ensures readings == Readings(g, index)
  {
    var numLoads := NumLoads(g);
    readings := [];
    var k := 0;
    while k < numLoads
      invariant 0 <= k && (numLoads > 0 ==> k <= numLoads) && (numLoads <= 0 ==> k == 0)
      invariant readings == ReadingsUpTo(g, k, index)
      decreases numLoads - k
    {
      var loadKey := LoadKey(k);
      if loadKey in g.loads {
        var power := g.loads[loadKey];
        if index < |power| {
          readings := readings + [MeterReading(power[index].seconds * 1000, loadKey, power[index].powerW)];
        }
      }
      k := k + 1;
    }
    assert k == if numLoads > 0 then numLoads else 0;
  }

  // ---------------------------------------------------------------------------------------
  // Loading and bucketing
  // ---------------------------------------------------------------------------------------

  /** No resource id occurs twice in the catalog, within a VEN or across VENs. */
  predicate CatalogUnique(catalog: map<string, seq<Resource>>) {
    (forall v :: v in catalog ==> UniqueIds(catalog[v]))
    && (forall v, w :: v in catalog && w in catalog && v != w ==> Apart(catalog[v], catalog[w]))
  }

  /** No resource of `a` has the id of a resource of `b`. */
  predicate Apart(a: seq<Resource>, b: seq<Resource>) {
    forall i, j :: 0 <= i < |a| && 0 <= j < |b| ==> a[i].resourceID != b[j].resourceID
  }

  /** The ids of some resources, in order. */
  function IdsOf(rs: seq<Resource>): (ids: seq<string>)
    ensures |ids| == |rs| && forall i :: 0 <= i < |rs| ==> ids[i] == rs[i].resourceID
  {
    seq(|rs|, i requires 0 <= i < |rs| => rs[i].resourceID)
  }

  /** `ven_list[:10]`. */
  function FirstTen(s: seq<string>): (r: seq<string>)
    ensures |r| <= 10 && (|s| <= 10 ==> r == s) && (|s| > 10 ==> r == s[..10])
  {
    if |s| <= 10 then s else s[..10]
  }

  /** The keys of a dictionary assigned to in the order of `s`: each once, where it first occurs. */
  function Dedup(s: seq<string>): (r: seq<string>)
    ensures forall x :: x in r <==> x in s
    ensures forall i, j :: 0 <= i < j < |r| ==> r[i] != r[j]
    decreases |s|
  {
    if s == [] then []
    else
      var d := Dedup(s[..|s| - 1]);
      if s[|s| - 1] in d then d else d + [s[|s| - 1]]
  }

  /** One more key of `s` is assigned: it goes last unless it was assigned before. */
  lemma DedupStep(s: seq<string>, n: nat)
    requires n < |s|
    ensures Dedup(s[..n + 1]) == if s[n] in Dedup(s[..n]) then Dedup(s[..n]) else Dedup(s[..n]) + [s[n]]
  {
    assert s[..n + 1][..n] == s[..n];
  }

  /** Exactly one of the three buckets holds `id`, as the resource's effective status directs:
      an APPROVED resource is approved, a SUSPENDED one is suspended unless it was promoted, and
      one with any other status (PENDING or unknown) is pending unless it was promoted. */
  predicate Placed(id: string, status: string, pe: set<string>, ap: set<string>, su: set<string>) {
    (id in pe || id in ap || id in su)
    && !(id in pe && id in ap) && !(id in pe && id in su) && !(id in ap && id in su)
    && (status == "APPROVED" ==> id in ap)
    && (id in su ==> status == "SUSPENDED")
    && (id in pe ==> status != "APPROVED" && status != "SUSPENDED")
  }

  /** Every one of the resources is placed by its effective status. */
  predicate AllPlaced(rs: seq<Resource>, pe: set<string>, ap: set<string>, su: set<string>) {
    forall k :: 0 <= k < |rs| ==> Placed(rs[k].resourceID, EffectiveStatus(rs[k]), pe, ap, su)
  }

  /** The three buckets share no id. */
  predicate Disjoint3(pe: set<string>, ap: set<string>, su: set<string>) {
    pe * ap == {} && pe * su == {} && ap * su == {}
  }

  /** The state of one loaded catalog resource after initialization: placed by its status, and
      stored as it was read, except for the meter an approved resource may have been given. */
  predicate LoadedResource(r: Resource, pe: set<string>, ap: set<string>, su: set<string>,
                           store: map<string, Resource>, pool: seq<string>) {
    Placed(r.resourceID, EffectiveStatus(r), pe, ap, su)
    && r.resourceID in store
    && store[r.resourceID] == r.(meterPointId := store[r.resourceID].meterPointId)
    && (r.resourceID in ap && pool != [] ==> store[r.resourceID].meterPointId in pool)
    && (r.resourceID !in ap || pool == [] ==> store[r.resourceID] == r)
  }

  /** `b` after `id` has been taken out of it and, when `target` holds, put back in. */
  function Moved(b: set<string>, id: string, target: bool): (r: set<string>)
    ensures id in r <==> target
    ensures forall x :: x != id ==> (x in r <==> x in b)
  {
    if target then b - {id} + {id} else b - {id}
  }

  /** The loaded VENs in insertion order, each once. */
  ghost predicate OrderShaped(order: seq<string>, vens: map<string, seq<string>>) {
    (forall i, j :: 0 <= i < j < |order| ==> order[i] != order[j])
    && (forall v :: v in vens <==> v in order)
  }

  /** Each loaded VEN has its three buckets, disjoint, holding only the VEN's own resources, and
      its resources are distinct. */
  ghost predicate BucketsShaped(vens: map<string, seq<string>>, pe: map<string, set<string>>,
                                ap: map<string, set<string>>, su: map<string, set<string>>)
  {
    (forall v :: v in vens ==> v in pe && v in ap && v in su)
    && (forall v, i, j :: v in vens && 0 <= i < j < |vens[v]| ==> vens[v][i] != vens[v][j])
    && (forall v :: v in vens ==> Disjoint3(pe[v], ap[v], su[v]))
    && (forall v, id :: v in vens && id in pe[v] + ap[v] + su[v] ==> id in vens[v])
  }

  /** Every loaded resource is stored under its id. */
  ghost predicate StoreShaped(vens: map<string, seq<string>>, store: map<string, Resource>) {
    forall v, id :: v in vens && id in vens[v] ==> id in store && store[id].resourceID == id
  }

  /** The shape of the simulator's dictionaries. */
  ghost predicate Shaped(order: seq<string>, vens: map<string, seq<string>>, pe: map<string, set<string>>,
                         ap: map<string, set<string>>, su: map<string, set<string>>, store: map<string, Resource>)
  {
    OrderShaped(order, vens) && BucketsShaped(vens, pe, ap, su) && StoreShaped(vens, store)
  }

  lemma OrderAfterLoad(order: seq<string>, vens: map<string, seq<string>>, v: string, ids: seq<string>)
    requires OrderShaped(order, vens)
    ensures OrderShaped(if v in vens then order else order + [v], vens[v := ids])
  {
  }

  lemma BucketsAfterLoad(vens: map<string, seq<string>>, pe: map<string, set<string>>,
                         ap: map<string, set<string>>, su: map<string, set<string>>,
                         v: string, rs: seq<Resource>, bpe: set<string>, bap: set<string>, bsu: set<string>)
    requires BucketsShaped(vens, pe, ap, su)
    requires UniqueIds(rs) && Disjoint3(bpe, bap, bsu)
    requires forall id :: id in bpe + bap + bsu ==> id in IdsOf(rs)
    ensures BucketsShaped(vens[v := IdsOf(rs)], pe[v := bpe], ap[v := bap], su[v := bsu])
  {
  }

  lemma StoreAfterLoad(vens: map<string, seq<string>>, store: map<string, Resource>, v: string, rs: seq<Resource>)
    requires StoreShaped(vens, store) && UniqueIds(rs)
    ensures StoreShaped(vens[v := IdsOf(rs)], store + ById(rs))
  {
    var vens', m := vens[v := IdsOf(rs)], ById(rs);
    forall w, id | w in vens' && id in vens'[w] ensures id in store + m && (store + m)[id].resourceID == id {
      if w == v {
        var k :| 0 <= k < |rs| && IdsOf(rs)[k] == id;
        assert rs[k].resourceID in m;
      } else {
        assert id in vens[w];
      }
      StoredUnderId(store, m, id);
    }
  }

  /** A resource stored under its id stays so when more resources, each under its own id, are
      merged in. */
  lemma StoredUnderId(store: map<string, Resource>, m: map<string, Resource>, id: string)
    requires (id in store && store[id].resourceID == id) || id in m
    requires forall x :: x in m ==> m[x].resourceID == x
    ensures id in store + m && (store + m)[id].resourceID == id
  {
    if id in m {
      assert (store + m)[id] == m[id];
    } else {
      assert (store + m)[id] == store[id];
    }
  }

  /** Loading (or reloading) VEN `v` from its catalog rows `rs` keeps the shape. */
  lemma ShapedAfterLoad(order: seq<string>, vens: map<string, seq<string>>, pe: map<string, set<string>>,
                        ap: map<string, set<string>>, su: map<string, set<string>>, store: map<string, Resource>,
                        v: string, rs: seq<Resource>, bpe: set<string>, bap: set<string>, bsu: set<string>)
    requires Shaped(order, vens, pe, ap, su, store)
    requires UniqueIds(rs) && Disjoint3(bpe, bap, bsu)
    requires forall id :: id in bpe + bap + bsu ==> id in IdsOf(rs)
    ensures Shaped(if v in vens then order else order + [v], vens[v := IdsOf(rs)],
                   pe[v := bpe], ap[v := bap], su[v := bsu], store + ById(rs))
  {
    OrderAfterLoad(order, vens, v, IdsOf(rs));
    BucketsAfterLoad(vens, pe, ap, su, v, rs, bpe, bap, bsu);
    StoreAfterLoad(vens, store, v, rs);
  }

  /** The message of the error raised by operations called before initialization. */
  const NotInitializedMessage := "Resources not initialized. Call initialize_resources() first."

  /** What `update_resource_status` did. */
  datatype UpdateOutcome = NotInitialized | UnknownVen | UnknownResource | InvalidStatus | Updated

  /** One VEN's line of the statistics. */
  datatype VenStats = VenStats(pending: nat, approved: nat, suspended: nat, total: nat)

  /** `get_statistics()` of an initialized simulator. */
  datatype Stats = Stats(totalVens: nat, totalResources: nat, byVen: map<string, VenStats>,
                         totalPending: nat, totalApproved: nat, totalSuspended: nat)

  /** The sum of the sizes of the buckets of the VENs in `order`. */
  function SumSizes(order: seq<string>, m: map<string, set<string>>): nat
    requires forall v :: v in order ==> v in m
    decreases |order|
  {
    if order == [] then 0 else SumSizes(order[..|order| - 1], m) + |m[order[|order| - 1]]|
  }

  /** The sum of the lengths of the resource lists of the VENs in `order`. */
  function SumLengths(order: seq<string>, m: map<string, seq<string>>): nat
    requires forall v :: v in order ==> v in m
    decreases |order|
  {
    if order == [] then 0 else SumLengths(order[..|order| - 1], m) + |m[order[|order| - 1]]|
  }

  /** When every VEN's resources are split among its three buckets, the resources counted per
      VEN add up to the three status totals. */
  lemma {:induction false} SumsBalance(order: seq<string>, vens: map<string, seq<string>>,
                                       pe: map<string, set<string>>, ap: map<string, set<string>>,
                                       su: map<string, set<string>>)
    requires forall v :: v in order ==> v in vens && v in pe && v in ap && v in su
    requires forall v :: v in order ==> |vens[v]| == |pe[v]| + |ap[v]| + |su[v]|
    ensures SumLengths(order, vens) == SumSizes(order, pe) + SumSizes(order, ap) + SumSizes(order, su)
    decreases |order|
  {
    if order != [] {
      SumsBalance(order[..|order| - 1], vens, pe, ap, su);
    }
  }

  /** A VEN's resource list split among three disjoint buckets has as many entries as the
      buckets have together. */
  lemma PartitionSize(ids: seq<string>, pe: set<string>, ap: set<string>, su: set<string>)
    requires forall i, j :: 0 <= i < j < |ids| ==> ids[i] != ids[j]
    requires Disjoint3(pe, ap, su)
    requires forall id :: id in ids <==> id in pe + ap + su
    ensures |ids| == |pe| + |ap| + |su|
  {
    DistinctCardinality(ids, pe + ap + su);
    assert (pe + ap) * su == {};
  }

  /** The statistics loop over the VENs of `order`: each VEN's bucket sizes and their sum, and
      the running totals of resources and of each status. */
  method Tally(order: seq<string>, vens: map<string, seq<string>>, pe: map<string, set<string>>,
               ap: map<string, set<string>>, su: map<string, set<string>>)
    returns (totalResources: nat, byVen: map<string, VenStats>, totalPending: nat, totalApproved: nat,
             totalSuspended: nat)
    requires forall v :: v in order ==> v in vens && v in pe && v in ap && v in su
    ensures forall v :: v in byVen <==> v in order
    ensures forall v :: v in byVen ==> byVen[v] == VenStats(|pe[v]|, |ap[v]|, |su[v]|, |pe[v]| + |ap[v]| + |su[v]|)
    ensures totalResources == SumLengths(order, vens)
    ensures totalPending == SumSizes(order, pe) && totalApproved == SumSizes(order, ap)
    ensures totalSuspended == SumSizes(order, su)
  {
    totalResources, totalPending, totalApproved, totalSuspended := 0, 0, 0, 0;
    byVen := map[];
    for n := 0 to |order|
      invariant totalResources == SumLengths(order[..n], vens)
      invariant totalPending == SumSizes(order[..n], pe)
      invariant totalApproved == SumSizes(order[..n], ap)
      invariant totalSuspended == SumSizes(order[..n], su)
      invariant forall v :: v in byVen <==> v in order[..n]
      invariant forall v :: v in byVen ==> byVen[v] == VenStats(|pe[v]|, |ap[v]|, |su[v]|, |pe[v]| + |ap[v]| + |su[v]|)
    {
      var v := order[n];
      SumLengthsStep(order, vens, n);
      SumSizesStep(order, pe, n);
      SumSizesStep(order, ap, n);
      SumSizesStep(order, su, n);
      var p, a, s := |pe[v]|, |ap[v]|, |su[v]|;
      byVen := byVen[v := VenStats(p, a, s, p + a + s)];
      totalResources := totalResources + |vens[v]|;
      totalPending, totalApproved, totalSuspended := totalPending + p, totalApproved + a, totalSuspended + s;
    }
    assert order[..|order|] == order;
  }

  /** The statistics of the loaded VENs `order`. When every VEN's resources are split among its
      buckets, each VEN's total is its number of resources and the status totals add up to the
      number of resources. */
  method ComputeStats(order: seq<string>, vens: map<string, seq<string>>, pe: map<string, set<string>>,
                      ap: map<string, set<string>>, su: map<string, set<string>>)
    returns (stats: Stats)
    requires OrderShaped(order, vens) && BucketsShaped(vens, pe, ap, su) && |order| == |vens|
    ensures stats.totalVens == |vens| && stats.totalResources == SumLengths(order, vens)
    ensures stats.byVen.Keys == vens.Keys
    ensures forall v :: v in vens ==>
      stats.byVen[v] == VenStats(|pe[v]|, |ap[v]|, |su[v]|, |pe[v]| + |ap[v]| + |su[v]|)
    ensures stats.totalPending == SumSizes(order, pe) && stats.totalApproved == SumSizes(order, ap)
    ensures stats.totalSuspended == SumSizes(order, su)
    ensures (forall v :: v in vens ==> Spread(vens[v], pe[v], ap[v], su[v])) ==>
      stats.totalResources == stats.totalPending + stats.totalApproved + stats.totalSuspended
      && forall v :: v in vens ==> stats.byVen[v].total == |vens[v]|
  {
    var totalResources, byVen, totalPending, totalApproved, totalSuspended := Tally(order, vens, pe, ap, su);
    stats := Stats(|order|, totalResources, byVen, totalPending, totalApproved, totalSuspended);
    if forall v :: v in vens ==> Spread(vens[v], pe[v], ap[v], su[v]) {
      TotalsBalance(order, vens, pe, ap, su);
      forall v | v in vens ensures byVen[v].total == |vens[v]| {
        PartitionSize(vens[v], pe[v], ap[v], su[v]);
      }
    }
  }

  /** When every loaded VEN's resources are split among its buckets, the resources of the VENs
      in `order` add up to the three status totals. */
  lemma TotalsBalance(order: seq<string>, vens: map<string, seq<string>>, pe: map<string, set<string>>,
                      ap: map<string, set<string>>, su: map<string, set<string>>)
    requires BucketsShaped(vens, pe, ap, su) && forall v :: v in order ==> v in vens
    requires forall v :: v in vens ==> Spread(vens[v], pe[v], ap[v], su[v])
    ensures SumLengths(order, vens) == SumSizes(order, pe) + SumSizes(order, ap) + SumSizes(order, su)
  {
    forall v | v in order ensures |vens[v]| == |pe[v]| + |ap[v]| + |su[v]| {
      PartitionSize(vens[v], pe[v], ap[v], su[v]);
    }
    SumsBalance(order, vens, pe, ap, su);
  }

  /** No two of the resources share an id. */
  predicate UniqueIds(rs: seq<Resource>) {
    forall k, k2 :: 0 <= k < k2 < |rs| ==> rs[k].resourceID != rs[k2].resourceID
  }

  /** The resources keyed by their ids. */
  function ById(rs: seq<Resource>): (m: map<string, Resource>)
    requires UniqueIds(rs)
    ensures forall k :: 0 <= k < |rs| ==> rs[k].resourceID in m && m[rs[k].resourceID] == rs[k]
    ensures forall id :: id in m ==> id in IdsOf(rs) && m[id].resourceID == id
  {
    map k | 0 <= k < |rs| :: rs[k].resourceID := rs[k]
  }

  /** The bucketing loop of `initialize_resources` for one VEN. `random.random() < 0.1` is a
      free choice per resource: a promoted resource goes to APPROVED whatever its status. */
  method SortIntoBuckets(rs: seq<Resource>) returns (pe: set<string>, ap: set<string>, su: set<string>)
    requires UniqueIds(rs)
    ensures Disjoint3(pe, ap, su)
    ensures AllPlaced(rs, pe, ap, su)
    ensures forall id :: id in pe + ap + su <==> id in IdsOf(rs)
  {
    pe, ap, su := {}, {}, {};
    for i := 0 to |rs|
      invariant Disjoint3(pe, ap, su)
      invariant forall k :: 0 <= k < i ==> Placed(rs[k].resourceID, EffectiveStatus(rs[k]), pe, ap, su)
      invariant forall k :: i <= k < |rs| ==> rs[k].resourceID !in pe + ap + su
      invariant forall id :: id in pe + ap + su ==> id in IdsOf(rs)
    {
      var r := rs[i];
      var status := EffectiveStatus(r);
      var promote: bool := *;
      if promote {
        status := "APPROVED";
      }
      if status == "PENDING" {
        pe := pe + {r.resourceID};
      } else if status == "APPROVED" {
        ap := ap + {r.resourceID};
      } else if status == "SUSPENDED" {
        su := su + {r.resourceID};
      } else {
        pe := pe + {r.resourceID};
      }
    }
    forall id | id in IdsOf(rs) ensures id in pe + ap + su {
      var k :| 0 <= k < |rs| && IdsOf(rs)[k] == id;
      assert Placed(rs[k].resourceID, EffectiveStatus(rs[k]), pe, ap, su);
    }
  }

  /** `db.get_resources_by_ven(v)`: no rows for a VEN the catalog does not know. */
  function CatalogOf(catalog: map<string, seq<Resource>>, v: string): (rs: seq<Resource>)
    ensures v in catalog ==> rs == catalog[v]
    ensures v !in catalog ==> rs == []
  {
    if v in catalog then catalog[v] else []
  }

  /** Different VENs of a catalog without repeated ids have no id in common, and each VEN's
      rows have distinct ids. */
  lemma CatalogDisjoint(catalog: map<string, seq<Resource>>, v: string, w: string)
    requires CatalogUnique(catalog)
    ensures UniqueIds(CatalogOf(catalog, v))
    ensures v != w ==> Apart(CatalogOf(catalog, v), CatalogOf(catalog, w))
  {
  }

  /** Each of the rows is stored, exactly as read, under its id. */
  predicate StoredAsRead(rs: seq<Resource>, store: map<string, Resource>) {
    forall k :: 0 <= k < |rs| ==> rs[k].resourceID in store && store[rs[k].resourceID] == rs[k]
  }

  /** Storing rows whose ids are all different from those of `rs` keeps `rs` stored as read. */
  lemma StoredAsReadKept(rs: seq<Resource>, store: map<string, Resource>, other: seq<Resource>)
    requires StoredAsRead(rs, store) && UniqueIds(other)
    requires Apart(rs, other)
    ensures StoredAsRead(rs, store + ById(other))
  {
    forall k | 0 <= k < |rs| ensures rs[k].resourceID !in ById(other) {
      forall j | 0 <= j < |other| ensures IdsOf(other)[j] != rs[k].resourceID {
      }
    }
  }

  /** VEN rows `rs` loaded as `ids`, split among three buckets by their statuses, and stored as
      they were read. */
  ghost predicate VenLoaded(rs: seq<Resource>, ids: seq<string>, pe: set<string>, ap: set<string>,
                            su: set<string>, store: map<string, Resource>)
  {
    ids == IdsOf(rs) && (forall id :: id in ids <==> id in pe + ap + su)
    && AllPlaced(rs, pe, ap, su) && StoredAsRead(rs, store)
  }

  /** Every loaded VEN is loaded from its catalog rows. */
  ghost predicate AllLoaded(catalog: map<string, seq<Resource>>, vens: map<string, seq<string>>,
                            pe: map<string, set<string>>, ap: map<string, set<string>>,
                            su: map<string, set<string>>, store: map<string, Resource>)
  {
    forall v :: v in vens ==>
      v in pe && v in ap && v in su && VenLoaded(CatalogOf(catalog, v), vens[v], pe[v], ap[v], su[v], store)
  }

  /** A VEN stays loaded while rows with other ids are stored. */
  lemma VenLoadedKept(rs: seq<Resource>, ids: seq<string>, pe: set<string>, ap: set<string>,
                      su: set<string>, store: map<string, Resource>, other: seq<Resource>)
    requires VenLoaded(rs, ids, pe, ap, su, store) && UniqueIds(other)
    requires Apart(rs, other)
    ensures VenLoaded(rs, ids, pe, ap, su, store + ById(other))
  {
    StoredAsReadKept(rs, store, other);
  }

  /** One loading pass keeps every other VEN loaded, because their ids are not the new VEN's. */
  lemma AllLoadedAfterLoad(catalog: map<string, seq<Resource>>, vens: map<string, seq<string>>,
                           pe: map<string, set<string>>, ap: map<string, set<string>>,
                           su: map<string, set<string>>, store: map<string, Resource>,
                           v: string, bpe: set<string>, bap: set<string>, bsu: set<string>)
    requires CatalogUnique(catalog) && AllLoaded(catalog, vens, pe, ap, su, store)
    requires AllPlaced(CatalogOf(catalog, v), bpe, bap, bsu)
    requires forall id :: id in IdsOf(CatalogOf(catalog, v)) <==> id in bpe + bap + bsu
    ensures AllLoaded(catalog, vens[v := IdsOf(CatalogOf(catalog, v))], pe[v := bpe], ap[v := bap],
                      su[v := bsu], store + ById(CatalogOf(catalog, v)))
  {
    var rs := CatalogOf(catalog, v);
    CatalogDisjoint(catalog, v, v);
    var vens', pe', ap', su', store' := vens[v := IdsOf(rs)], pe[v := bpe], ap[v := bap], su[v := bsu], store + ById(rs);
    forall w | w in vens'
      ensures w in pe' && w in ap' && w in su'
      ensures VenLoaded(CatalogOf(catalog, w), vens'[w], pe'[w], ap'[w], su'[w], store')
    {
      if w == v {
        assert StoredAsRead(rs, store');
      } else {
        CatalogDisjoint(catalog, w, v);
        VenLoadedKept(CatalogOf(catalog, w), vens[w], pe[w], ap[w], su[w], store, rs);
      }
    }
  }

  /** The ids in the approved buckets of the loaded VENs. */
  function ApprovedIds(vens: map<string, seq<string>>, ap: map<string, set<string>>): (ids: set<string>)
    ensures forall v, id :: v in vens && v in ap && id in ap[v] ==> id in ids
    ensures forall id :: id in ids ==> exists v :: v in vens && v in ap && id in ap[v]
  {
    set v, id | v in vens && v in ap && id in ap[v] :: id
  }

  /** The meter assignment of `initialize_resources`: every approved resource is given a meter
      of the pool (`random.choice`), and nothing else of any resource changes. */
  method AssignMeters(ids: set<string>, store: map<string, Resource>, pool: seq<string>)
    returns (st: map<string, Resource>)
    requires pool != [] && forall id :: id in ids ==> id in store
    ensures st.Keys == store.Keys
    ensures forall id :: id in store ==> st[id] == store[id].(meterPointId := st[id].meterPointId)
    ensures forall id :: id in ids ==> st[id].meterPointId in pool
    ensures forall id :: id in store && id !in ids ==> st[id] == store[id]
  {
    st := store;
    var todo := ids;
    while todo != {}
      invariant todo <= ids && st.Keys == store.Keys
      invariant forall id :: id in store ==> st[id] == store[id].(meterPointId := st[id].meterPointId)
      invariant forall id :: id in ids - todo ==> st[id].meterPointId in pool
      invariant forall id :: id in store && id !in ids - todo ==> st[id] == store[id]
      decreases |todo|
    {
      var id :| id in todo;
      assert pool[0] in pool;
      var meter :| meter in pool;
      st := st[id := st[id].(meterPointId := meter)];
      todo := todo - {id};
    }
  }

  /** The state after initialization of the VEN with rows `rs`: its resources are those rows,
      each in exactly one bucket, and each stored as read except for an approved one's meter. */
  ghost predicate VenSettled(rs: seq<Resource>, ids: seq<string>, pe: set<string>, ap: set<string>,
                             su: set<string>, store: map<string, Resource>, pool: seq<string>)
  {
    ids == IdsOf(rs) && (forall id :: id in ids <==> id in pe + ap + su)
    && forall k :: 0 <= k < |rs| ==> LoadedResource(rs[k], pe, ap, su, store, pool)
  }

  /** Changing only the meters of stored resources keeps every loaded resource stored under its id. */
  lemma StoreShapedRepointed(vens: map<string, seq<string>>, store: map<string, Resource>, st: map<string, Resource>)
    requires StoreShaped(vens, store) && st.Keys == store.Keys
    requires forall id :: id in store ==> st[id] == store[id].(meterPointId := st[id].meterPointId)
    ensures StoreShaped(vens, st)
  {
  }

  /** In a catalog without repeated ids, an id names a row of one VEN only. */
  lemma IdAcrossVens(catalog: map<string, seq<Resource>>, v: string, w: string, k: int, id: string)
    requires CatalogUnique(catalog)
    requires 0 <= k < |CatalogOf(catalog, v)| && CatalogOf(catalog, v)[k].resourceID == id
    requires id in IdsOf(CatalogOf(catalog, w))
    ensures v == w
  {
    CatalogDisjoint(catalog, v, w);
    var cw := CatalogOf(catalog, w);
    var j :| 0 <= j < |IdsOf(cw)| && IdsOf(cw)[j] == id;
    assert CatalogOf(catalog, v)[k].resourceID == cw[j].resourceID;
  }

  /** Giving the approved resources their meters settles every loaded VEN. */
  lemma SettledAfterAssign(catalog: map<string, seq<Resource>>, vens: map<string, seq<string>>,
                           pe: map<string, set<string>>, ap: map<string, set<string>>,
                           su: map<string, set<string>>, store: map<string, Resource>,
                           st: map<string, Resource>, pool: seq<string>, v: string)
    requires CatalogUnique(catalog) && AllLoaded(catalog, vens, pe, ap, su, store)
    requires st.Keys == store.Keys
    requires forall id :: id in store ==> st[id] == store[id].(meterPointId := st[id].meterPointId)
    requires pool != [] ==> forall id :: id in ApprovedIds(vens, ap) ==> id in st && st[id].meterPointId in pool
    requires forall id :: id in store && (pool == [] || id !in ApprovedIds(vens, ap)) ==> st[id] == store[id]
    requires v in vens
    ensures VenSettled(CatalogOf(catalog, v), vens[v], pe[v], ap[v], su[v], st, pool)
  {
    var rs := CatalogOf(catalog, v);
    assert VenLoaded(rs, vens[v], pe[v], ap[v], su[v], store);
    forall k | 0 <= k < |rs| ensures LoadedResource(rs[k], pe[v], ap[v], su[v], st, pool) {
      var id := rs[k].resourceID;
      assert Placed(id, EffectiveStatus(rs[k]), pe[v], ap[v], su[v]);
      if id in ApprovedIds(vens, ap) {
        var w :| w in vens && w in ap && id in ap[w];
        assert VenLoaded(CatalogOf(catalog, w), vens[w], pe[w], ap[w], su[w], store);
        IdAcrossVens(catalog, v, w, k, id);
      }
      assert id in ApprovedIds(vens, ap) ==> id in ap[v];
    }
  }

  /** Every loaded VEN is settled once the meter assignment has run. */
  lemma AllSettled(catalog: map<string, seq<Resource>>, vens: map<string, seq<string>>,
                   pe: map<string, set<string>>, ap: map<string, set<string>>,
                   su: map<string, set<string>>, store: map<string, Resource>,
                   st: map<string, Resource>, pool: seq<string>)
    requires CatalogUnique(catalog) && AllLoaded(catalog, vens, pe, ap, su, store)
    requires st.Keys == store.Keys
    requires forall id :: id in store ==> st[id] == store[id].(meterPointId := st[id].meterPointId)
    requires pool != [] ==> forall id :: id in ApprovedIds(vens, ap) ==> id in st && st[id].meterPointId in pool
    requires forall id :: id in store && (pool == [] || id !in ApprovedIds(vens, ap)) ==> st[id] == store[id]
    ensures forall v :: v in vens ==>
      v in pe && v in ap && v in su && VenSettled(CatalogOf(catalog, v), vens[v], pe[v], ap[v], su[v], st, pool)
  {
    forall v | v in vens
      ensures v in pe && v in ap && v in su
      ensures VenSettled(CatalogOf(catalog, v), vens[v], pe[v], ap[v], su[v], st, pool)
    {
      SettledAfterAssign(catalog, vens, pe, ap, su, store, st, pool, v);
    }
  }

  /** The meter assignment of `initialize_resources` on the loaded dictionaries: with a
      non-empty pool every approved resource of the loaded VENs is given one of its meters, and
      every loaded VEN ends up settled. */
  method AssignApproved(catalog: map<string, seq<Resource>>, vens: map<string, seq<string>>,
                        pe: map<string, set<string>>, ap: map<string, set<string>>,
                        su: map<string, set<string>>, store: map<string, Resource>, pool: seq<string>)
    returns (st: map<string, Resource>)
    requires CatalogUnique(catalog) && AllLoaded(catalog, vens, pe, ap, su, store)
    requires BucketsShaped(vens, pe, ap, su) && StoreShaped(vens, store)
    ensures StoreShaped(vens, st)
    ensures forall v :: v in vens ==>
      v in pe && v in ap && v in su && VenSettled(CatalogOf(catalog, v), vens[v], pe[v], ap[v], su[v], st, pool)
  {
    st := store;
    if pool != [] {
      forall id | id in ApprovedIds(vens, ap) ensures id in store {
        var v :| v in vens && v in ap && id in ap[v];
        assert id in vens[v];
      }
      st := AssignMeters(ApprovedIds(vens, ap), store, pool);
      StoreShapedRepointed(vens, store, st);
    }
    AllSettled(catalog, vens, pe, ap, su, store, st, pool);
  }

  /** The stored resources of `ids`, keyed by id. */
  function ViewOf(ids: set<string>, store: map<string, Resource>): (m: map<string, Resource>)
    requires forall id :: id in ids ==> id in store
    ensures m.Keys == ids && forall id :: id in m ==> m[id] == store[id]
  {
    map id | id in ids :: store[id]
  }

  /** The buckets of a VEN after `id` has been taken out of whichever held it and, for a known
      status, put into that status's bucket. */
  function MoveTo(pe: set<string>, ap: set<string>, su: set<string>, id: string, target: Option<Status>)
    : (r: (set<string>, set<string>, set<string>))
  {
    (Moved(pe, id, target == Some(Pending)), Moved(ap, id, target == Some(Approved)),
     Moved(su, id, target == Some(Suspended)))
  }

  /** Every resource of a VEN is in exactly one of its buckets. */
  ghost predicate Spread(ids: seq<string>, pe: set<string>, ap: set<string>, su: set<string>) {
    Disjoint3(pe, ap, su) && forall x :: x in ids <==> x in pe + ap + su
  }

  /** A move to a known status keeps the VEN's resources split among its buckets, with `id` in
      the bucket of its new status. */
  lemma MoveKeepsPartition(ids: seq<string>, pe: set<string>, ap: set<string>, su: set<string>,
                           id: string, st: Status)
    requires Spread(ids, pe, ap, su) && id in ids
    ensures var b := MoveTo(pe, ap, su, id, Some(st)); Spread(ids, b.0, b.1, b.2)
    ensures var b := MoveTo(pe, ap, su, id, Some(st));
      id in (match st case Pending => b.0 case Approved => b.1 case Suspended => b.2)
  {
  }

  /** A move to an unknown status takes `id` out of every bucket although it stays a resource
      of the VEN: the buckets no longer cover the VEN's resources. */
  lemma MoveToUnknownDrops(ids: seq<string>, pe: set<string>, ap: set<string>, su: set<string>, id: string)
    requires id in ids
    ensures var b := MoveTo(pe, ap, su, id, None); id !in b.0 + b.1 + b.2 && !Spread(ids, b.0, b.1, b.2)
  {
  }

  /** The bucket dictionaries and the store after `id` of VEN `v` was moved towards `target` and
      given the status `status`. */
  predicate MovedTables(pe0: map<string, set<string>>, ap0: map<string, set<string>>, su0: map<string, set<string>>,
                        store0: map<string, Resource>, pe: map<string, set<string>>, ap: map<string, set<string>>,
                        su: map<string, set<string>>, store: map<string, Resource>,
                        v: string, id: string, status: string, target: Option<Status>)
    requires v in pe0 && v in ap0 && v in su0 && id in store0
  {
    var b := MoveTo(pe0[v], ap0[v], su0[v], id, target);
    pe == pe0[v := b.0] && ap == ap0[v := b.1] && su == su0[v := b.2]
    && store == store0[id := store0[id].(registrationStatus := Some(status))]
  }

  /** A move within one VEN keeps the shape of the dictionaries, and so does changing a stored
      resource's status. */
  lemma ShapedAfterMove(order: seq<string>, vens: map<string, seq<string>>, pe: map<string, set<string>>,
                        ap: map<string, set<string>>, su: map<string, set<string>>, store: map<string, Resource>,
                        v: string, id: string, target: Option<Status>, status: string)
    requires Shaped(order, vens, pe, ap, su, store) && v in vens && id in vens[v]
    ensures var b := MoveTo(pe[v], ap[v], su[v], id, target);
      Shaped(order, vens, pe[v := b.0], ap[v := b.1], su[v := b.2],
             store[id := store[id].(registrationStatus := Some(status))])
  {
    var b := MoveTo(pe[v], ap[v], su[v], id, target);
    BucketsAfterMove(vens, pe, ap, su, v, id, b.0, b.1, b.2);
  }

  lemma BucketsAfterMove(vens: map<string, seq<string>>, pe: map<string, set<string>>,
                         ap: map<string, set<string>>, su: map<string, set<string>>,
                         v: string, id: string, bpe: set<string>, bap: set<string>, bsu: set<string>)
    requires BucketsShaped(vens, pe, ap, su) && v in vens && id in vens[v]
    requires Disjoint3(pe[v], ap[v], su[v]) ==> Disjoint3(bpe, bap, bsu)
    requires forall x :: x in bpe + bap + bsu ==> x == id || x in pe[v] + ap[v] + su[v]
    ensures BucketsShaped(vens, pe[v := bpe], ap[v := bap], su[v := bsu])
  {
  }

  /** Summing one more VEN's bucket size. */
  lemma SumSizesStep(order: seq<string>, m: map<string, set<string>>, n: nat)
    requires n < |order| && forall v :: v in order ==> v in m
    ensures SumSizes(order[..n + 1], m) == SumSizes(order[..n], m) + |m[order[n]]|
  {
    assert order[..n + 1][..n] == order[..n];
  }

  /** Summing one more VEN's number of resources. */
  lemma SumLengthsStep(order: seq<string>, m: map<string, seq<string>>, n: nat)
    requires n < |order| && forall v :: v in order ==> v in m
    ensures SumLengths(order[..n + 1], m) == SumLengths(order[..n], m) + |m[order[n]]|
  {
    assert order[..n + 1][..n] == order[..n];
  }

  // ---------------------------------------------------------------------------------------
  // The simulator
  // ---------------------------------------------------------------------------------------

  /**
   * The simulator's shared state. The resource objects that Python keeps both in a VEN's list
   * and in its status buckets are one entry of `store` each, keyed by resource id, so a change
   * to a resource is seen through every bucket and list that holds it.
   */
  class MeterDataSimulator {
    /** `db.get_resources_by_ven(v)` for every VEN of the resource catalog. */
    const catalog: map<string, seq<Resource>>
    /** `db.get_ven_list()`. */
    const catalogVens: seq<string>
    /** The `meters` group of the reading source, by meter key. */
    const source: map<string, MeterGroup>

    var initialized: bool
    /** Each loaded VEN's resources, as ids into `store`, in catalog order. */
    var vens: map<string, seq<string>>
    /** The loaded VENs in insertion order: the key order of Python's `vens` dictionary. */
    var venOrder: seq<string>
    var store: map<string, Resource>
    var pending: map<string, set<string>>
    var approved: map<string, set<string>>
    var suspended: map<string, set<string>>
    var availableMeters: seq<string>
    /** The status column writes sent to the catalog, by resource id. */
    var statusWrites: map<string, string>
    var currentIndex: nat
    var dataLength: Option<nat>

    /** The bucket of `st` for VEN `v`. */
    function BucketOf(st: Status, v: string): (b: set<string>)
      requires v in pending && v in approved && v in suspended
      reads this`pending, this`approved, this`suspended
    {
      match st
      case Pending => pending[v]
      case Approved => approved[v]
      case Suspended => suspended[v]
    }

    /** The shape every state has, including those in the middle of initialization. */
    ghost predicate Structure()
      reads this`venOrder, this`vens, this`pending, this`approved, this`suspended, this`store
    {
      Shaped(venOrder, vens, pending, approved, suspended, store)
    }

    /** An uninitialized simulator holds nothing and has not read the series length. */
    ghost predicate EmptyWhenIdle()
      reads this`venOrder, this`vens, this`pending, this`approved, this`suspended, this`store
      reads this`initialized, this`availableMeters, this`dataLength
    {
      !initialized ==>
        vens == map[] && venOrder == [] && store == map[] && pending == map[]
        && approved == map[] && suspended == map[] && availableMeters == [] && dataLength.None?
    }

    /** The cursor is at the start until the series length is known, and inside the series
        (or at 0 for an empty one) afterwards. */
    ghost predicate CursorInRange()
      reads this`currentIndex, this`dataLength
    {
      (dataLength.None? ==> currentIndex == 0)
      && (dataLength.Some? ==> currentIndex == 0 || currentIndex < dataLength.value)
    }

    /** The simulator's invariant. */
    ghost predicate Valid()
      reads this`venOrder, this`vens, this`pending, this`approved, this`suspended, this`store
      reads this`initialized, this`availableMeters, this`currentIndex, this`dataLength
    {
      Structure() && EmptyWhenIdle() && CursorInRange()
    }

    /** Every resource of `v` is in exactly one bucket. */
    ghost predicate Partitioned(v: string)
      requires v in vens && v in pending && v in approved && v in suspended
      reads this`vens, this`pending, this`approved, this`suspended
    {
      Spread(vens[v], pending[v], approved[v], suspended[v])
    }

    /** The first construction, with its catalog and reading source. */
    constructor (catalog: map<string, seq<Resource>>, catalogVens: seq<string>, source: map<string, MeterGroup>)
      requires CatalogUnique(catalog)
      ensures Valid() && !initialized
      ensures this.catalog == catalog && this.catalogVens == catalogVens && this.source == source
      ensures currentIndex == 0 && statusWrites == map[]
    {
      this.catalog := catalog;
      this.catalogVens := catalogVens;
      this.source := source;
      initialized := false;
      vens := map[];
      venOrder := [];
      store := map[];
      pending := map[];
      approved := map[];
      suspended := map[];
      availableMeters := [];
      statusWrites := map[];
      currentIndex := 0;
      dataLength := None;
    }

    /** One pass of the loading loop: the VEN's resources are read and each is put in the bucket
        its status (or a random promotion) selects; the other VENs stay as they were loaded. */
    method LoadVen(v: string)
      requires Structure() && CatalogUnique(catalog)
      requires AllLoaded(catalog, vens, pending, approved, suspended, store)
      modifies this`venOrder, this`vens, this`pending, this`approved, this`suspended, this`store
      ensures Structure() && AllLoaded(catalog, vens, pending, approved, suspended, store)
      ensures venOrder == if v in old(vens) then old(venOrder) else old(venOrder) + [v]
    {
      var rs := CatalogOf(catalog, v);
      CatalogDisjoint(catalog, v, v);
      var pe, ap, su := SortIntoBuckets(rs);
      ShapedAfterLoad(venOrder, vens, pending, approved, suspended, store, v, rs, pe, ap, su);
      AllLoadedAfterLoad(catalog, vens, pending, approved, suspended, store, v, pe, ap, su);
      Install(if v in vens then venOrder else venOrder + [v], vens[v := IdsOf(rs)],
              pending[v := pe], approved[v := ap], suspended[v := su], store + ById(rs));
    }

    /** The dictionary assignments of one loading pass or status update. */
    method Install(order: seq<string>, vs: map<string, seq<string>>, pe: map<string, set<string>>,
                   ap: map<string, set<string>>, su: map<string, set<string>>, st: map<string, Resource>)
      requires Shaped(order, vs, pe, ap, su, st)
      modifies this`venOrder, this`vens, this`pending, this`approved, this`suspended, this`store
      ensures Structure()
      ensures venOrder == order && vens == vs && store == st
      ensures pending == pe && approved == ap && suspended == su
    {
      venOrder, vens, store := order, vs, st;
      pending, approved, suspended := pe, ap, su;
    }

    /** The store assignment of the meter assignment pass. */
    method SetStore(st: map<string, Resource>)
      requires Shaped(venOrder, vens, pending, approved, suspended, st)
      modifies this`store
      ensures Structure() && store == st
    {
      store := st;
    }

    /** The loading loop of `initialize_resources`: each VEN of `first` is loaded in turn; a VEN
        listed twice is loaded again and keeps its first position. */
    method LoadVens(first: seq<string>)
      requires Structure() && CatalogUnique(catalog)
      requires venOrder == [] && vens == map[]
      modifies this`venOrder, this`vens, this`pending, this`approved, this`suspended, this`store
      ensures Structure() && venOrder == Dedup(first)
      ensures AllLoaded(catalog, vens, pending, approved, suspended, store)
    {
      for n := 0 to |first|
        invariant Structure() && venOrder == Dedup(first[..n])
        invariant AllLoaded(catalog, vens, pending, approved, suspended, store)
      {
        LoadVen(first[n]);
        DedupStep(first, n);
      }
      assert first[..|first|] == first;
    }

    /** The meter assignment of `initialize_resources`: with a non-empty pool every approved
        resource of the loaded VENs is given one of its meters. */
    method GiveApprovedMeters()
      requires Structure() && CatalogUnique(catalog)
      requires AllLoaded(catalog, vens, pending, approved, suspended, store)
      modifies this`store
      ensures Structure()
      ensures forall v :: v in vens ==>
        v in pending && v in approved && v in suspended
        && VenSettled(CatalogOf(catalog, v), vens[v], pending[v], approved[v], suspended[v], store, availableMeters)
    {
      var st := AssignApproved(catalog, vens, pending, approved, suspended, store, availableMeters);
      SetStore(st);
    }

    /**
     * `initialize_resources`: nothing happens once initialized. Otherwise the first ten VENs of
     * the list (every catalog VEN when none is given) are loaded in turn, `meters` (what the
     * reading source lists, `None` when listing it fails) becomes the meter pool, and when the
     * pool is not empty every approved resource is given one of its meters.
     */
    method InitializeResources(venList: Option<seq<string>>, meters: Option<seq<string>>)
      requires Valid() && CatalogUnique(catalog)
      modifies this`venOrder, this`vens, this`pending, this`approved, this`suspended, this`store, this`availableMeters, this`initialized
      ensures Valid() && initialized
      ensures old(initialized) ==> unchanged(this)
      ensures !old(initialized) ==> Loaded(FirstTen(venList.GetOr(catalogVens)), meters.GetOr([]))
    {
      if !initialized {
        Load(FirstTen(venList.GetOr(catalogVens)), meters);
      }
    }

    /** The state `initialize_resources` leaves: the VENs of `first` loaded in order of first
        occurrence, `pool` as the meter pool, and every loaded VEN settled. */
    ghost predicate Loaded(first: seq<string>, pool: seq<string>)
      reads this`venOrder, this`vens, this`pending, this`approved, this`suspended, this`store, this`availableMeters
    {
      venOrder == Dedup(first) && availableMeters == pool
      && forall v :: v in vens ==>
        v in pending && v in approved && v in suspended
        && VenSettled(CatalogOf(catalog, v), vens[v], pending[v], approved[v], suspended[v], store, availableMeters)
    }

    /** The body of `initialize_resources` for an uninitialized simulator. */
    method Load(first: seq<string>, meters: Option<seq<string>>)
      requires Valid() && !initialized && CatalogUnique(catalog)
      modifies this`venOrder, this`vens, this`pending, this`approved, this`suspended, this`store, this`availableMeters, this`initialized
      ensures Valid() && initialized && Loaded(first, meters.GetOr([]))
    {
      LoadVens(first);
      Settle(meters.GetOr([]));
    }

    /** The end of `initialize_resources`: the meter pool is set, approved resources get their
        meters, and the simulator is marked initialized. */
    method Settle(pool: seq<string>)
      requires Structure() && CursorInRange() && CatalogUnique(catalog)
      requires AllLoaded(catalog, vens, pending, approved, suspended, store)
      modifies this`store, this`availableMeters, this`initialized
      ensures Valid() && initialized && availableMeters == pool
      ensures forall v :: v in vens ==>
        v in pending && v in approved && v in suspended
        && VenSettled(CatalogOf(catalog, v), vens[v], pending[v], approved[v], suspended[v], store, availableMeters)
    {
      availableMeters := pool;
      GiveApprovedMeters();
      initialized := true;
    }

    /**
     * `get_ven_resources`: an error before initialization; nothing for an unknown VEN or an
     * unknown status filter; otherwise the VEN's resources, or those of the bucket the filter
     * names, keyed by id.
     */
    function GetVenResources(v: string, status: Option<string>): (r: Result<map<string, Resource>, string>)
      requires Structure()
      reads this`initialized, this`venOrder, this`vens, this`pending, this`approved, this`suspended, this`store
      ensures r.Err? <==> !initialized
      ensures r.Ok? && (v !in vens || (status.Some? && ParseStatus(status.value).None?)) ==> r.value == map[]
      ensures r.Ok? && v in vens && status.None? ==>
        (forall id :: id in r.value <==> id in vens[v]) && forall id :: id in r.value ==> r.value[id] == store[id]
      ensures r.Ok? && v in vens && status.Some? && ParseStatus(status.value).Some? ==>
        r.value.Keys == BucketOf(ParseStatus(status.value).value, v)
        && forall id :: id in r.value ==> r.value[id] == store[id]
    {
      if !initialized then Err(NotInitializedMessage)
      else if v !in vens then Ok(map[])
      else if status.None? then Ok(ViewOf((set id | id in vens[v]), store))
      else match ParseStatus(status.value)
        case Some(st) => Ok(ViewOf(BucketOf(st, v), store))
        case None => Ok(map[])
    }

    /** When every resource of `v` is in exactly one bucket, the three filtered views split the
        unfiltered view: each resource is in exactly one of them, as the same stored resource. */
    lemma FilteredViewsPartition(v: string)
      requires Structure() && initialized && v in vens && Partitioned(v)
      ensures var all, p, a, s := GetVenResources(v, None).value, GetVenResources(v, Some("PENDING")).value,
                                 GetVenResources(v, Some("APPROVED")).value, GetVenResources(v, Some("SUSPENDED")).value;
        all.Keys == p.Keys + a.Keys + s.Keys
        && p.Keys * a.Keys == {} && p.Keys * s.Keys == {} && a.Keys * s.Keys == {}
        && (forall id :: id in p ==> p[id] == all[id])
        && (forall id :: id in a ==> a[id] == all[id])
        && (forall id :: id in s ==> s[id] == all[id])
    {
      assert ParseStatus("PENDING") == Some(Pending);
      assert ParseStatus("APPROVED") == Some(Approved);
      assert ParseStatus("SUSPENDED") == Some(Suspended);
      var all, p, a, s := GetVenResources(v, None).value, GetVenResources(v, Some("PENDING")).value,
                          GetVenResources(v, Some("APPROVED")).value, GetVenResources(v, Some("SUSPENDED")).value;
      assert p.Keys == pending[v] && a.Keys == approved[v] && s.Keys == suspended[v];
      assert all.Keys == pending[v] + approved[v] + suspended[v];
    }

    /** What `update_resource_status` does for these arguments, read off the state before it. */
    function ExpectedOutcome(v: string, id: string, newStatus: string): (o: UpdateOutcome)
      requires Structure()
      reads this`initialized, this`venOrder, this`vens, this`pending, this`approved, this`suspended, this`store
      ensures o == Updated ==> ParseStatus(newStatus).Some?
    {
      if !initialized then NotInitialized
      else if v !in vens then UnknownVen
      else if id !in pending[v] + approved[v] + suspended[v] then UnknownResource
      else if ParseStatus(newStatus).None? then InvalidStatus
      else Updated
    }

    /**
     * `update_resource_status` as written: the resource is taken out of its bucket and given the
     * new status before the status is checked, so an unknown status leaves it in no bucket; only
     * a known status puts it into that status's bucket and writes the status to the catalog.
     */
    method UpdateResourceStatus(v: string, id: string, newStatus: string) returns (outcome: UpdateOutcome)
      requires Valid()
      modifies this`pending, this`approved, this`suspended, this`store, this`statusWrites
      ensures Valid()
      ensures outcome == old(ExpectedOutcome(v, id, newStatus))
      ensures outcome in {NotInitialized, UnknownVen, UnknownResource} ==>
        store == old(store) && pending == old(pending) && approved == old(approved) && suspended == old(suspended)
      ensures outcome in {InvalidStatus, Updated} ==>
        MovedTables(old(pending), old(approved), old(suspended), old(store), pending, approved, suspended, store,
                    v, id, newStatus, ParseStatus(newStatus))
      ensures statusWrites == if outcome == Updated then old(statusWrites)[id := newStatus] else old(statusWrites)
      ensures outcome == Updated ==> id in BucketOf(ParseStatus(newStatus).value, v)
      ensures outcome == Updated && old(Partitioned(v)) ==> Partitioned(v)
      ensures outcome == InvalidStatus ==> id in vens[v] && !Partitioned(v)
    {
      if !initialized {
        return NotInitialized;
      }
      if v !in vens {
        return UnknownVen;
      }
      if id !in pending[v] && id !in approved[v] && id !in suspended[v] {
        return UnknownResource;
      }
      var target := ParseStatus(newStatus);
      Move(v, id, newStatus, target);
      outcome := if target.Some? then Updated else InvalidStatus;
    }

    /** The bucket move, status change and status write of `update_resource_status`. */
    method Move(v: string, id: string, newStatus: string, target: Option<Status>)
      requires Valid() && initialized && v in vens && id in pending[v] + approved[v] + suspended[v]
      modifies this`pending, this`approved, this`suspended, this`store, this`statusWrites
      ensures Valid()
      ensures statusWrites == if target.Some? then old(statusWrites)[id := newStatus] else old(statusWrites)
      ensures MovedTables(old(pending), old(approved), old(suspended), old(store), pending, approved, suspended, store,
                          v, id, newStatus, target)
      ensures target.Some? && old(Partitioned(v)) ==> Partitioned(v)
      ensures target.Some? ==> id in BucketOf(target.value, v)
      ensures target.None? ==> id in vens[v] && !Partitioned(v)
    {
      var b := MoveTo(pending[v], approved[v], suspended[v], id, target);
      ShapedAfterMove(venOrder, vens, pending, approved, suspended, store, v, id, target, newStatus);
      if target.Some? {
        if Partitioned(v) {
          MoveKeepsPartition(vens[v], pending[v], approved[v], suspended[v], id, target.value);
        }
      } else {
        MoveToUnknownDrops(vens[v], pending[v], approved[v], suspended[v], id);
      }
      Rebucket(pending[v := b.0], approved[v := b.1], suspended[v := b.2],
               store[id := store[id].(registrationStatus := Some(newStatus))],
               if target.Some? then statusWrites[id := newStatus] else statusWrites);
    }

    /** The bucket, store and status-write assignments of a status update. */
    method Rebucket(pe: map<string, set<string>>, ap: map<string, set<string>>, su: map<string, set<string>>,
                    st: map<string, Resource>, sw: map<string, string>)
      requires Shaped(venOrder, vens, pe, ap, su, st) && initialized && CursorInRange()
      modifies this`pending, this`approved, this`suspended, this`store, this`statusWrites
      ensures Valid()
      ensures pending == pe && approved == ap && suspended == su && store == st && statusWrites == sw
    {
      pending, approved, suspended, store, statusWrites := pe, ap, su, st, sw;
    }

    /**
     * `update_resource_status` with the status checked before anything changes: an unknown
     * status is reported and leaves the resource where it was, so a VEN whose resources were
     * split among its buckets stays split whatever the outcome.
     */
    method UpdateResourceStatusChecked(v: string, id: string, newStatus: string) returns (outcome: UpdateOutcome)
      requires Valid()
      modifies this`pending, this`approved, this`suspended, this`store, this`statusWrites
      ensures Valid()
      ensures outcome == old(ExpectedOutcome(v, id, newStatus))
      ensures outcome != Updated ==>
        store == old(store) && statusWrites == old(statusWrites)
        && pending == old(pending) && approved == old(approved) && suspended == old(suspended)
      ensures outcome == Updated ==>
        MovedTables(old(pending), old(approved), old(suspended), old(store), pending, approved, suspended, store,
                    v, id, newStatus, ParseStatus(newStatus))
        && statusWrites == old(statusWrites)[id := newStatus]
      ensures v in vens && old(v in vens && Partitioned(v)) ==> Partitioned(v)
    {
      if !initialized {
        return NotInitialized;
      }
      if v !in vens {
        return UnknownVen;
      }
      if id !in pending[v] && id !in approved[v] && id !in suspended[v] {
        return UnknownResource;
      }
      var target := ParseStatus(newStatus);
      if target.None? {
        return InvalidStatus;
      }
      Move(v, id, newStatus, target);
      return Updated;
    }

    /**
     * `get_statistics()`: an error entry before initialization; otherwise the number of loaded
     * VENs and of their resources, each VEN's bucket sizes and their sum, and the bucket sizes
     * added up per status.
     */
    method GetStatistics() returns (r: Result<Stats, string>)
      requires Structure()
      ensures r.Err? <==> !initialized
      ensures r.Err? ==> r.error == "Not initialized"
      ensures r.Ok? ==> r.value.totalVens == |vens| && r.value.totalResources == SumLengths(venOrder, vens)
      ensures r.Ok? ==> r.value.byVen.Keys == vens.Keys && forall v :: v in vens ==>
        r.value.byVen[v] == VenStats(|pending[v]|, |approved[v]|, |suspended[v]|,
                                     |pending[v]| + |approved[v]| + |suspended[v]|)
      ensures r.Ok? ==>
        r.value.totalPending == SumSizes(venOrder, pending)
        && r.value.totalApproved == SumSizes(venOrder, approved)
        && r.value.totalSuspended == SumSizes(venOrder, suspended)
      ensures r.Ok? && (forall v :: v in vens ==> Partitioned(v)) ==>
        r.value.totalResources == r.value.totalPending + r.value.totalApproved + r.value.totalSuspended
        && forall v :: v in vens ==> r.value.byVen[v].total == |vens[v]|
    {
      if !initialized {
        return Err("Not initialized");
      }
      DistinctCardinality(venOrder, vens.Keys);
      var stats := ComputeStats(venOrder, vens, pending, approved, suspended);
      r := Ok(stats);
    }

    /**
     * `increase_time()`: an error before initialization. The series length is read once, from
     * load 0 of the first meter of the reading source (`seriesLength`, `None` when that read
     * fails, which is an error too), and kept; then the cursor moves one row on, back to 0 when
     * it reaches the end.
     */
    method IncreaseTime(seriesLength: Option<nat>) returns (r: Result<nat, string>)
      requires Valid()
      modifies this`currentIndex, this`dataLength
      ensures Valid()
      ensures r.Err? <==> !initialized || (old(dataLength).None? && seriesLength.None?)
      ensures r.Err? && !initialized ==> r.error == NotInitializedMessage
      ensures r.Err? ==> currentIndex == old(currentIndex) && dataLength == old(dataLength)
      ensures r.Ok? ==> dataLength == (if old(dataLength).Some? then old(dataLength) else seriesLength)
      ensures r.Ok? ==> currentIndex == NextIndex(old(currentIndex), dataLength.value) && r.value == currentIndex
    {
      if !initialized {
        return Err(NotInitializedMessage);
      }
      var len: nat;
      match dataLength {
        case Some(n) =>
          len := n;
        case None =>
          if seriesLength.None? {
            return Err("Error reading H5 data length");
          }
          len := seriesLength.value;
      }
      dataLength, currentIndex := Some(len), NextIndex(currentIndex, len);
      r := Ok(currentIndex);
    }

    /**
     * `collect_next_metering(ven_id)`: an error before initialization; nothing for an unknown
     * VEN; otherwise, for each approved resource of the VEN whose meter is in the reading source
     * and has at least one reading at the cursor, that resource's readings.
     */
    method CollectNextMetering(v: string) returns (r: Result<map<string, ResourceMeterData>, string>)
      requires Structure()
      ensures r.Err? <==> !initialized
      ensures r.Err? ==> r.error == NotInitializedMessage
      ensures r.Ok? && v !in vens ==> r.value == map[]
      ensures r.Ok? && v in vens ==> forall id :: id in r.value <==>
        id in approved[v] && SnapshotOf(id, store[id], source, currentIndex).Some?
      ensures r.Ok? && v in vens ==> forall id :: id in r.value ==>
        Some(r.value[id]) == SnapshotOf(id, store[id], source, currentIndex)
    {
      if !initialized {
        return Err(NotInitializedMessage);
      }
      if v !in vens {
        return Ok(map[]);
      }
      var bucket := approved[v];
      var result: map<string, ResourceMeterData> := map[];
      if bucket == {} {
        return Ok(result);
      }
      var todo := bucket;
      while todo != {}
        invariant todo <= bucket
        invariant forall id :: id in result <==>
          id in bucket - todo && SnapshotOf(id, store[id], source, currentIndex).Some?
        invariant forall id :: id in result ==> Some(result[id]) == SnapshotOf(id, store[id], source, currentIndex)
        decreases todo
      {
        var id :| id in todo;
        var resource := store[id];
        var meterKey := MeterKey(resource.meterPointId);
        if meterKey in source {
          var readings := ReadMeter(source[meterKey], currentIndex);
          if readings != [] {
            result := result[id := ResourceMeterData(id, resource.meterPointId, readings)];
          }
        }
        todo := todo - {id};
      }
      r := Ok(result);
    }

    /** `reset()`: the simulator is emptied and uninitialized, and the cursor and the cached
        series length are cleared; status writes already sent to the catalog stay. */
    method Reset()
      modifies this`initialized, this`venOrder, this`vens, this`pending, this`approved, this`suspended
      modifies this`store, this`availableMeters, this`currentIndex, this`dataLength
      ensures Valid() && !initialized && currentIndex == 0
    {
      initialized, vens, venOrder, store := false, map[], [], map[];
      pending, approved, suspended, availableMeters := map[], map[], map[], [];
      currentIndex, dataLength := 0, None;
    }

    /** `get_ven_list()`: the loaded VENs, each once, in the order they were first loaded. */
    function GetVenList(): (vs: seq<string>)
      requires OrderShaped(venOrder, vens)
      reads this`venOrder, this`vens
      ensures forall v :: v in vs <==> v in vens
      ensures forall i, j :: 0 <= i < j < |vs| ==> vs[i] != vs[j]
      ensures |vs| == |vens|
    {
      DistinctCardinality(venOrder, vens.Keys);
      venOrder
    }
  }

  /**
   * The Borg shared state: every `MeterDataSimulator()` shares one dictionary, which only the
   * first construction fills. The slot holds the one simulator object that stands for it.
   */
  class SimulatorSlot {
    var shared: MeterDataSimulator?

    /** `_shared_state = {}`: nothing is shared before the first construction. */
    constructor ()
      ensures shared == null
    {
      shared := null;
    }

    /** Once made, the shared state keeps the simulator's invariant over a catalog with unique
        resource ids. */
    ghost predicate Valid()
      reads this, shared
    {
      shared != null ==> shared.Valid() && CatalogUnique(shared.catalog)
    }

    /** `MeterDataSimulator(db_path)`: the first call fills the shared state from its catalog;
        every later call sees that same state, untouched, and its arguments are ignored. */
    method Construct(catalog: map<string, seq<Resource>>, catalogVens: seq<string>, source: map<string, MeterGroup>)
      returns (sim: MeterDataSimulator)
      requires Valid()
      requires shared == null ==> CatalogUnique(catalog)
      modifies this
      ensures Valid() && shared == sim
      ensures old(shared) != null ==> sim == old(shared) && unchanged(sim)
      ensures old(shared) == null ==>
        fresh(sim) && !sim.initialized
        && sim.catalog == catalog && sim.catalogVens == catalogVens && sim.source == source
        && sim.currentIndex == 0 && sim.statusWrites == map[]
    {
      if shared == null {
        shared := new MeterDataSimulator(catalog, catalogVens, source);
      }
      sim := shared;
    }
  }

  /** `initialize_simulator(ven_list, db_path)`: the shared simulator, whose resources are
      loaded only if the shared state is not initialized yet; an initialized state is returned
      as it is, and then both arguments are ignored. */
  method InitializeSimulator(slot: SimulatorSlot, catalog: map<string, seq<Resource>>, catalogVens: seq<string>,
                             source: map<string, MeterGroup>, venList: Option<seq<string>>,
                             meters: Option<seq<string>>)
    returns (sim: MeterDataSimulator)
    requires slot.Valid()
    requires slot.shared == null ==> CatalogUnique(catalog)
    modifies slot, slot.shared
    ensures slot.Valid() && slot.shared == sim && sim.initialized
    ensures old(slot.shared) != null ==> sim == old(slot.shared)
    ensures old(slot.shared) == null ==>
      fresh(sim) && sim.catalog == catalog && sim.catalogVens == catalogVens && sim.source == source
      && sim.currentIndex == 0 && sim.statusWrites == map[]
    ensures old(slot.shared != null && slot.shared.initialized) ==> unchanged(sim)
    ensures old(slot.shared == null || !slot.shared.initialized) ==>
      sim.Loaded(FirstTen(venList.GetOr(sim.catalogVens)), meters.GetOr([]))
  {
    sim := slot.Construct(catalog, catalogVens, source);
    if !sim.initialized {
      sim.InitializeResources(venList, meters);
    }
  }
}
