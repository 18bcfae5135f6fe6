/**
 * The sample-generation rules of prepare_samples.py: N-digit random numbers, meter-point ids,
 * the city a resource's VEN is named after, the capacity envelope by resource type and
 * sub-type, and the conversion of table rows into resources.
 */
module PrepareSamples {
  import opened Wrappers
  import opened Ascii
  import opened Strings
  import opened Values
  import opened FlexResources

  /** `random_with_N_digits(n)`: a number with exactly `n` decimal digits. For `n < 1` the lower
      bound `10**(n-1)` is not an integer and `randint` raises. */
  method RandomWithNDigits(n: int) returns (r: Result<nat, string>)
    ensures n < 1 ==> r.Err?
    ensures n >= 1 ==> r.Ok? && Pow10(n - 1) <= r.value <= Pow10(n) - 1
  {
    if n < 1 {
      return Err("non-integer arg 1 for randrange()");
    }
    var lo := Pow10(n - 1);
    var hi := Pow10(n) - 1;
    var v: nat :| lo <= v <= hi;
    r := Ok(v);
  }

  /** A number drawn by `random_with_N_digits(n)` prints with exactly `n` digits. */
  lemma NDigitsPrintWidth(v: nat, n: nat)
    requires n >= 1 && Pow10(n - 1) <= v <= Pow10(n) - 1
    ensures |Decimal(v)| == n
  {
    DecimalLength(v, n);
  }

  /** The fixed prefix of every generated meter-point id. */
  const MeterPointPrefix: string := "707057500"

  /** `specify_mpid(row)`: the prefix followed by a random 9-digit number. */
  method SpecifyMpid() returns (id: string)
    ensures |id| == 18
    ensures forall k :: 0 <= k < |id| ==> IsDigit(id[k])
    ensures StartsWith(id, MeterPointPrefix)
    ensures DecimalValue(id[9..]) >= Pow10(8)
  {
    var r := RandomWithNDigits(9);
    NDigitsPrintWidth(r.value, 9);
    DecimalRoundTrip(r.value);
    id := MeterPointPrefix + Decimal(r.value);
    assert id[..9] == MeterPointPrefix;
    assert id[9..] == Decimal(r.value);
  }

  /** Python's `parts[len(parts) - 2]`: for a single part the index is -1, the last (only) one. */
  function SecondToLast(parts: seq<string>): (p: string)
    requires |parts| >= 1
    ensures |parts| >= 2 ==> p == parts[|parts| - 2]
    ensures |parts| == 1 ==> p == parts[0]
  {
    if |parts| >= 2 then parts[|parts| - 2] else parts[|parts| - 1]
  }

  /** The second space-separated word of `city`, or its first when there is only one. The split
      always has a part, so the source's fallback "Unknown" is never taken. */
  function CityWord(city: string): (w: string)
    ensures ' ' !in w
    ensures |Split(city, ' ')| > 1 ==> w == Split(city, ' ')[1]
    ensures |Split(city, ' ')| == 1 ==> w == city
  {
    var words := Split(city, ' ');
    if |words| > 1 then words[1]
    else
      JoinSplit(city, ' ');
      words[0]
  }

  /** `specify_ven(row)`: the city part of an address, `"street, postcode city, country"`. */
  function SpecifyVen(address: string): (ven: string)
  {
    CityWord(Strip(SecondToLast(Split(address, ','))))
  }

  /** Every character of a part of a split comes from the split string. */
  lemma {:induction false} SplitChars(s: string, sep: char)
    ensures forall k, c :: 0 <= k < |Split(s, sep)| && c in Split(s, sep)[k] ==> c in s
    decreases |s|
  {
    if s != [] {
      SplitChars(s[1..], sep);
      var parts := Split(s, sep);
      var rest := Split(s[1..], sep);
      forall k, c | 0 <= k < |parts| && c in parts[k] ensures c in s {
        assert s == [s[0]] + s[1..];
        if s[0] == sep {
          assert parts[k] == rest[k - 1];
          assert c in s[1..];
        } else if k == 0 {
          assert parts[0] == [s[0]] + rest[0];
          assert c == s[0] || c in s[1..];
        } else {
          assert parts[k] == rest[k];
          assert c in s[1..];
        }
      }
    }
  }

  /** The VEN name is one word: it contains neither the comma nor the space separator, and all
      of its characters come from the address. */
  lemma SpecifyVenIsOneWord(address: string)
    ensures ' ' !in SpecifyVen(address) && ',' !in SpecifyVen(address)
    ensures forall c :: c in SpecifyVen(address) ==> c in address
  {
    var parts := Split(address, ',');
    var part := SecondToLast(parts);
    var city := Strip(part);
    SplitChars(address, ',');
    SplitChars(city, ' ');
    var i :| TrimmedAt(part, city, i);
    forall c | c in SpecifyVen(address) ensures c in part {
      assert c in city;
      var k :| 0 <= k < |city| && city[k] == c;
      assert part[i + k] == c;
    }
  }

  /** An address without a comma is one part, so the whole stripped address is the city text. */
  lemma SpecifyVenWithoutComma(address: string)
    requires ',' !in address
    ensures SpecifyVen(address) == CityWord(Strip(address))
  {
    JoinSplit(address, ',');
    SplitLength(address, ',');
    CountMissing(address, ',');
  }

  lemma {:induction false} CountMissing(s: string, c: char)
    requires c !in s
    ensures Count(s, c) == 0
    decreases |s|
  {
    if s != [] {
      CountMissing(s[1..], c);
    }
  }

  /** The capacity envelope of a resource: EV chargers have a fixed one; demand-response
      resources are classed by words in their lower-cased sub-type, checked in order. The
      source compares with `ResourceType.EV.name`, which raises because the enumeration has no
      `EV` member; this is the comparison with the name `"EV"` it evidently means. */
  function CapacitiesFor(resourceType: string, subType: string): (caps: seq<Entry>)
  {
    if resourceType == Ev.Name() then Capacities(22.0, 0.0, 100.0, 0.0)
    else
      var st := Lower(subType);
      if Contains(st, "hotel") || Contains(st, "swimmingpool") then Capacities(50.0, -20.0, 200.0, 0.0)
      else if Contains(st, "industry") || Contains(st, "school") then Capacities(100.0, -40.0, 400.0, 0.0)
      else Capacities(25.0, -10.0, 100.0, 0.0)
  }

  /** The sub-type contains `word` once lower-cased. */
  ghost predicate Mentions(subType: string, word: string) {
    exists i :: OccursAt(Lower(subType), word, i)
  }

  /** The capacity rules stated by where the words occur in the lower-cased sub-type. */
  lemma CapacityRules(resourceType: string, subType: string)
    ensures resourceType == "EV" ==> CapacitiesFor(resourceType, subType) == Capacities(22.0, 0.0, 100.0, 0.0)
    ensures resourceType != "EV" && (Mentions(subType, "hotel") || Mentions(subType, "swimmingpool")) ==>
      CapacitiesFor(resourceType, subType) == Capacities(50.0, -20.0, 200.0, 0.0)
    ensures resourceType != "EV" && !Mentions(subType, "hotel") && !Mentions(subType, "swimmingpool")
            && (Mentions(subType, "industry") || Mentions(subType, "school")) ==>
      CapacitiesFor(resourceType, subType) == Capacities(100.0, -40.0, 400.0, 0.0)
    ensures resourceType != "EV" && !Mentions(subType, "hotel") && !Mentions(subType, "swimmingpool")
            && !Mentions(subType, "industry") && !Mentions(subType, "school") ==>
      CapacitiesFor(resourceType, subType) == Capacities(25.0, -10.0, 100.0, 0.0)
  {
    MentionsContains(subType, "hotel");
    MentionsContains(subType, "swimmingpool");
    MentionsContains(subType, "industry");
    MentionsContains(subType, "school");
    var st := Lower(subType);
    assert Ev.Name() == "EV";
    if resourceType == "EV" {
      assert CapacitiesFor(resourceType, subType) == Capacities(22.0, 0.0, 100.0, 0.0);
    } else if Contains(st, "hotel") || Contains(st, "swimmingpool") {
      assert CapacitiesFor(resourceType, subType) == Capacities(50.0, -20.0, 200.0, 0.0);
    } else if Contains(st, "industry") || Contains(st, "school") {
      assert CapacitiesFor(resourceType, subType) == Capacities(100.0, -40.0, 400.0, 0.0);
    } else {
      assert CapacitiesFor(resourceType, subType) == Capacities(25.0, -10.0, 100.0, 0.0);
    }
  }

  lemma MentionsContains(subType: string, word: string)
    ensures Mentions(subType, word) <==> Contains(Lower(subType), word)
  {
    ContainsAt(Lower(subType), word);
  }

  /** Every envelope the generator picks can both import and export no more than it can
      store: `P_min <= 0 <= P_max` and `E_min == 0 < E_max`. */
  lemma CapacitiesEnvelope(resourceType: string, subType: string)
    ensures exists pMax: real, pMin: real, eMax: real ::
      CapacitiesFor(resourceType, subType) == Capacities(pMax, pMin, eMax, 0.0)
      && pMin <= 0.0 <= pMax && 0.0 < eMax
  {
    var st := Lower(subType);
    if resourceType == Ev.Name() {
      assert CapacitiesFor(resourceType, subType) == Capacities(22.0, 0.0, 100.0, 0.0);
    } else if Contains(st, "hotel") || Contains(st, "swimmingpool") {
      assert CapacitiesFor(resourceType, subType) == Capacities(50.0, -20.0, 200.0, 0.0);
    } else if Contains(st, "industry") || Contains(st, "school") {
      assert CapacitiesFor(resourceType, subType) == Capacities(100.0, -40.0, 400.0, 0.0);
    } else {
      assert CapacitiesFor(resourceType, subType) == Capacities(25.0, -10.0, 100.0, 0.0);
    }
  }

  /** The sub-type's letter case does not matter. */
  lemma CapacitiesIgnoreCase(resourceType: string, subType: string)
    ensures CapacitiesFor(resourceType, subType) == CapacitiesFor(resourceType, Lower(subType))
  {
    LowerHasNoUpper(subType);
    LowerOfNoUpper(Lower(subType));
  }

  /** One row of the resource table the generator reads. */
  datatype Row = Row(title: string, address: string, longitude: real, latitude: real,
                     resourceType: string, resourceSubType: string, meterpointId: string,
                     ven: string, resourceId: string)

  /** The file-reader connection every generated resource shares, with an empty file name. */
  function SampleConnection(): (c: Connection)
    ensures c.connType == FileReader && c.actorType == Reader && c.file == Some("")
  {
    NewConnection(FileReader, Reader).(file := Some(""))
  }

  /** The resource built from one row, with the sub-type and address the source passes
      although the dataclass does not declare them (as written that call raises `TypeError`). */
  function BuildResource(row: Row): (r: Resource)
    ensures r.resourceID == row.resourceId && r.resourceName == row.title
    ensures r.resourceType == row.resourceType && r.resourceSubType == row.resourceSubType
    ensures r.meterPointId == row.meterpointId && r.address == row.address
    ensures r.capacities == CapacitiesFor(row.resourceType, row.resourceSubType)
    ensures Lookup(r.location, "latitude") == Some(Real(row.latitude))
    ensures Lookup(r.location, "longitude") == Some(Real(row.longitude))
    ensures Keys(r.location) == ["latitude", "longitude"]
    ensures r.enabled == Some(true) && r.reporting.None? && r.registrationStatus.None?
  {
    var location := [Entry("latitude", Real(row.latitude)), Entry("longitude", Real(row.longitude))];
    Resource(row.resourceId, row.title, row.resourceType, row.resourceSubType, row.meterpointId,
             SampleConnection(), CapacitiesFor(row.resourceType, row.resourceSubType), location,
             row.address, Some(true), None, None)
  }

  /** The (resource, VEN) pairs of some rows, in row order. */
  function Converted(rows: seq<Row>): (res: seq<(Resource, string)>)
    ensures |res| == |rows|
  {
    if rows == [] then []
    else Converted(rows[..|rows| - 1]) + [(BuildResource(rows[|rows| - 1]), rows[|rows| - 1].ven)]
  }

  /** The `i`-th pair is built from the `i`-th row. */
  lemma {:induction false} ConvertedAt(rows: seq<Row>, i: int)
    requires 0 <= i < |rows|
    ensures Converted(rows)[i] == (BuildResource(rows[i]), rows[i].ven)
    decreases |rows|
  {
    var init := rows[..|rows| - 1];
    var cs := Converted(init);
    assert Converted(rows) == cs + [(BuildResource(rows[|rows| - 1]), rows[|rows| - 1].ven)];
    if i < |rows| - 1 {
      ConvertedAt(init, i);
      assert Converted(rows)[i] == cs[i];
    }
  }

  /** One more row adds its pair at the end. */
  lemma ConvertedStep(rows: seq<Row>, n: nat)
    requires n < |rows|
    ensures Converted(rows[..n + 1]) == Converted(rows[..n]) + [(BuildResource(rows[n]), rows[n].ven)]
  {
    assert rows[..n + 1][..n] == rows[..n];
  }

  /** `convert_to_resources(df)`: one (resource, VEN) pair per row, in row order. As written the
      source raises on the first row (see `CapacitiesFor` and `BuildResource`). */
  method ConvertToResources(rows: seq<Row>) returns (pairs: seq<(Resource, string)>)
    ensures pairs == Converted(rows)
    ensures forall i :: 0 <= i < |rows| ==> pairs[i] == (BuildResource(rows[i]), rows[i].ven)
  {
    pairs := [];
    for i := 0 to |rows|
      invariant pairs == Converted(rows[..i])
    {
      var row := rows[i];
      var resource := BuildResource(row);
      ConvertedStep(rows, i);
      pairs := pairs + [(resource, row.ven)];
    }
    assert rows[..|rows|] == rows;
    forall i | 0 <= i < |rows| ensures pairs[i] == (BuildResource(rows[i]), rows[i].ven) {
      ConvertedAt(rows, i);
    }
  }
}
