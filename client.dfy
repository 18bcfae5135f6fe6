/**
 * The sequential parts of venclient/client.py: the records exchanged with the server, the
 * status rules of the registration and polling calls (the network reduced to the outcome of
 * each request), the key conversion `process_dict` and the attribute flattening done when a
 * VEN's resources are registered.
 */
module Client {
  import opened Wrappers
  import opened Ascii
  import opened Utils
  import opened Values
  import opened FlexResources

  // ---------------------------------------------------------------------------------------
  // Key conversion
  // ---------------------------------------------------------------------------------------

  /** The items of the comprehension in `process_dict`: each key converted, each value processed. */
  function ConvertedItems(es: seq<Entry>, ghost parent: Value): (cs: seq<Entry>)
    requires parent == Dict(es)
    ensures |cs| == |es|
    ensures forall i :: 0 <= i < |es| ==> cs[i] == Entry(CamelToSnake(es[i].key), ProcessDict(es[i].value))
    decreases parent, 0
  {
    seq(|es|, i requires 0 <= i < |es| => Entry(CamelToSnake(es[i].key), ProcessDict(es[i].value)))
  }

  /** `VENManager.process_dict(value)`: dictionary keys go through `camel_to_snake` at every
      depth, lists are processed element by element, anything else is returned as it is. */
  function ProcessDict(v: Value): Value
    decreases v, 1
  {
    match v
    case Dict(es) => Dict(Collect(ConvertedItems(es, v)))
    case List(items) => List(seq(|items|, i requires 0 <= i < |items| => ProcessDict(items[i])))
    case _ => v
  }

  /** A list keeps its length and is processed element by element; a value that is neither a
      dictionary nor a list (a dataclass instance included) comes back unchanged. */
  lemma ProcessDictShape(v: Value)
    ensures v.List? ==> ProcessDict(v).List? && |ProcessDict(v).items| == |v.items|
    ensures v.List? ==> forall i :: 0 <= i < |v.items| ==> ProcessDict(v).items[i] == ProcessDict(v.items[i])
    ensures v.Dict? ==> ProcessDict(v).Dict?
    ensures !v.List? && !v.Dict? ==> ProcessDict(v) == v
  {
  }

  /** The keys of a processed dictionary are exactly the converted keys of the original. */
  lemma ProcessDictKeys(es: seq<Entry>)
    ensures ProcessDict(Dict(es)).Dict?
    ensures forall x :: x in Keys(ProcessDict(Dict(es)).entries)
                   <==> exists i :: 0 <= i < |es| && CamelToSnake(es[i].key) == x
  {
    var cs := ConvertedItems(es, Dict(es));
    CollectKeys(cs);
    forall x ensures x in Keys(cs) <==> exists i :: 0 <= i < |es| && CamelToSnake(es[i].key) == x {
      if x in Keys(cs) {
        var i :| 0 <= i < |cs| && Keys(cs)[i] == x;
        assert CamelToSnake(es[i].key) == x;
      }
      if exists i :: 0 <= i < |es| && CamelToSnake(es[i].key) == x {
        var i :| 0 <= i < |es| && CamelToSnake(es[i].key) == x;
        assert Keys(cs)[i] == x;
      }
    }
  }

  /**
   * Two keys that convert to the same snake-case key collide, as in the Python comprehension:
   * the converted key holds the processed value of the LAST original item that converts to it.
   */
  lemma ProcessDictCollision(es: seq<Entry>, i: int)
    requires 0 <= i < |es|
    requires forall j :: i < j < |es| ==> CamelToSnake(es[j].key) != CamelToSnake(es[i].key)
    ensures Lookup(ProcessDict(Dict(es)).entries, CamelToSnake(es[i].key)) == Some(ProcessDict(es[i].value))
  {
    var cs := ConvertedItems(es, Dict(es));
    CollectLast(cs, i);
  }

  /** Processing yields dictionaries with unique keys, none of them holding an upper-case letter. */
  lemma ProcessDictSnake(v: Value)
    ensures WellFormed(ProcessDict(v)) && SnakeKeys(ProcessDict(v))
    decreases v
  {
    match v
    case Dict(es) =>
      var cs := ConvertedItems(es, v);
      var d := Collect(cs);
      CollectKeys(cs);
      forall i | 0 <= i < |es| ensures WellFormed(cs[i].value) && SnakeKeys(cs[i].value) {
        ProcessDictSnake(es[i].value);
      }
      CollectEntries(cs);
      forall i | 0 <= i < |d| ensures NoUpper(d[i].key) && WellFormed(d[i].value) && SnakeKeys(d[i].value) {
        assert d[i] in cs;
        var j :| 0 <= j < |cs| && cs[j] == d[i];
      }
    case List(items) =>
      forall i | 0 <= i < |items| {
        ProcessDictSnake(items[i]);
      }
    case _ =>
  }

  /** Every entry of a collected dictionary is one of the items it was built from. */
  lemma {:induction false} CollectEntries(es: seq<Entry>)
    ensures forall e :: e in Collect(es) ==> e in es
    decreases |es|
  {
    if es != [] {
      var init := es[..|es| - 1];
      var last := es[|es| - 1];
      CollectEntries(init);
      PutEntries(Collect(init), last.key, last.value);
      assert init + [last] == es;
    }
  }

  /** Every entry after a put is the new item or an entry from before. */
  lemma {:induction false} PutEntries(es: seq<Entry>, k: string, v: Value)
    ensures forall e :: e in Put(es, k, v) ==> e == Entry(k, v) || e in es
    decreases |es|
  {
    if es != [] {
      assert es == [es[0]] + es[1..];
      if es[0].key != k {
        PutEntries(es[1..], k, v);
      }
    }
  }

  /** A value whose dictionaries already have unique snake-case keys is left as it is. */
  lemma ProcessDictOfSnake(v: Value)
    requires WellFormed(v) && SnakeKeys(v)
    ensures ProcessDict(v) == v
    decreases v
  {
    match v
    case Dict(es) =>
      var cs := ConvertedItems(es, v);
      forall i | 0 <= i < |es| ensures cs[i] == es[i] {
        ProcessDictOfSnake(es[i].value);
        CamelToSnakeOfSnake(es[i].key);
      }
      assert cs == es;
      CollectUnique(es);
    case List(items) =>
      var r := ProcessDict(v).items;
      forall i | 0 <= i < |items| ensures r[i] == items[i] {
        ProcessDictOfSnake(items[i]);
      }
      assert r == items;
    case _ =>
  }

  /** `process_dict` is idempotent. */
  lemma ProcessDictIdempotent(v: Value)
    ensures ProcessDict(ProcessDict(v)) == ProcessDict(v)
  {
    ProcessDictSnake(v);
    ProcessDictOfSnake(ProcessDict(v));
  }

  // ---------------------------------------------------------------------------------------
  // Attribute flattening
  // ---------------------------------------------------------------------------------------

  /** One attribute of a resource as it is sent to the server. */
  datatype Attribute = Attribute(attributeType: string, attributeName: string, attributeValues: seq<string>)

  /** The fields the registration record carries itself and the attribute list leaves out. */
  predicate Skipped(name: string) {
    name == "resourceID" || name == "resourceName" || name == "resourceType"
  }

  /** The attributes of a field named `name` whose processed value is `processed`: a dictionary
      gives one attribute per key, anything else one attribute named after the field. `render`
      is Python's `str()`. */
  function AttributesOf(name: string, processed: Value, render: Value -> string): (attrs: seq<Attribute>)
  {
    match processed
    case Dict(es) =>
      seq(|es|, i requires 0 <= i < |es| => Attribute(CamelToSnake(es[i].key), es[i].key, [render(es[i].value)]))
    case _ => [Attribute(CamelToSnake(name), CamelToSnake(name), [render(processed)])]
  }

  /** The attributes one resource field yields; its value goes through `process_dict` first. */
  function FieldAttributes(f: Entry, render: Value -> string): (attrs: seq<Attribute>)
  {
    if Skipped(f.key) then [] else AttributesOf(f.key, ProcessDict(f.value), render)
  }

  /** The attribute list built from a resource's fields, field by field in order. */
  function Flatten(fields: seq<Entry>, render: Value -> string): seq<Attribute>
    decreases |fields|
  {
    if fields == [] then []
    else Flatten(fields[..|fields| - 1], render) + FieldAttributes(fields[|fields| - 1], render)
  }

  /** The inner loop over the keys of a processed dictionary field. */
  method AppendDictAttributes(attrs: seq<Attribute>, es: seq<Entry>, render: Value -> string)
    returns (out: seq<Attribute>)
    ensures out == attrs + AttributesOf("", Dict(es), render)
  {
    out := attrs;
    ghost var all := AttributesOf("", Dict(es), render);
    for k := 0 to |es|
      invariant out == attrs + all[..k]
    {
      out := out + [Attribute(CamelToSnake(es[k].key), es[k].key, [render(es[k].value)])];
      assert all[..k + 1] == all[..k] + [all[k]];
    }
    assert all[..|es|] == all;
  }

  /** The attribute loop of `register_ven_and_resources` for one resource. */
  method BuildAttributes(fields: seq<Entry>, render: Value -> string) returns (attrs: seq<Attribute>)
    ensures attrs == Flatten(fields, render)
  {
    attrs := [];
    for i := 0 to |fields|
      invariant attrs == Flatten(fields[..i], render)
    {
      var f := fields[i];
      assert fields[..i + 1][..i] == fields[..i];
      assert Flatten(fields[..i + 1], render) == Flatten(fields[..i], render) + FieldAttributes(f, render);
      if !Skipped(f.key) {
        var value := ProcessDict(f.value);
        if value.Dict? {
          attrs := AppendDictAttributes(attrs, value.entries, render);
        } else {
          attrs := attrs + [Attribute(CamelToSnake(f.key), CamelToSnake(f.key), [render(value)])];
        }
      }
    }
    assert fields[..|fields|] == fields;
  }

  /** The registration record of one resource, with its attributes built by the loop. */
  method BuildConfig(r: Resource, render: Value -> string) returns (config: VenResource)
    ensures config == ResourceConfig(r, render)
  {
    var attrs := BuildAttributes(ResourceFields(r), render);
    config := VenResource(r.resourceID, r.resourceName, r.resourceType, attrs);
  }

  /** The shape every attribute has: type equal to name, no upper-case letter, one value. */
  predicate WellShaped(a: Attribute) {
    a.attributeType == a.attributeName && NoUpper(a.attributeName) && |a.attributeValues| == 1
  }

  /** The attributes of one field are well shaped. For a dictionary field the name is the key
      already converted by `process_dict`, so converting it again for the type changes nothing. */
  lemma FieldAttributesShape(f: Entry, render: Value -> string)
    ensures forall a :: a in FieldAttributes(f, render) ==> WellShaped(a)
  {
    if !Skipped(f.key) && ProcessDict(f.value).Dict? {
      var es := ProcessDict(f.value).entries;
      ProcessDictSnake(f.value);
      forall i | 0 <= i < |es| ensures CamelToSnake(es[i].key) == es[i].key {
        CamelToSnakeOfSnake(es[i].key);
      }
    }
  }

  /** Every attribute of a flattened resource is well shaped. */
  lemma {:induction false} FlattenShape(fields: seq<Entry>, render: Value -> string)
    ensures forall a :: a in Flatten(fields, render) ==> WellShaped(a)
    decreases |fields|
  {
    if fields != [] {
      FlattenShape(fields[..|fields| - 1], render);
      FieldAttributesShape(fields[|fields| - 1], render);
    }
  }

  /** Some attribute in `attrs` is named `x`. */
  predicate NamedIn(attrs: seq<Attribute>, x: string) {
    exists j :: 0 <= j < |attrs| && attrs[j].attributeName == x
  }

  /** Some key of `es` converts to `x`. */
  predicate ConvertsTo(es: seq<Entry>, x: string) {
    exists i :: 0 <= i < |es| && CamelToSnake(es[i].key) == x
  }

  /** A dictionary field yields an attribute for exactly the converted keys of the dictionary. */
  lemma DictFieldAttributes(name: string, es: seq<Entry>, render: Value -> string)
    requires !Skipped(name)
    ensures forall x :: NamedIn(FieldAttributes(Entry(name, Dict(es)), render), x) <==> ConvertsTo(es, x)
  {
    ProcessDictKeys(es);
    var d := ProcessDict(Dict(es)).entries;
    var attrs := FieldAttributes(Entry(name, Dict(es)), render);
    assert attrs == AttributesOf(name, Dict(d), render);
    forall x ensures NamedIn(attrs, x) <==> x in Keys(d) {
      if x in Keys(d) {
        var i :| 0 <= i < |d| && Keys(d)[i] == x;
        assert attrs[i].attributeName == x;
      }
      if NamedIn(attrs, x) {
        var j :| 0 <= j < |attrs| && attrs[j].attributeName == x;
        assert Keys(d)[j] == x;
      }
    }
  }

  /** A field whose value is not a dictionary yields the single attribute named after the
      snake-case field name. */
  lemma ScalarFieldAttribute(f: Entry, render: Value -> string)
    requires !Skipped(f.key) && !f.value.Dict?
    ensures FieldAttributes(f, render) ==
      [Attribute(CamelToSnake(f.key), CamelToSnake(f.key), [render(ProcessDict(f.value))])]
  {
    ProcessDictShape(f.value);
  }

  /** The identification fields of a resource contribute no attribute: the attributes are those
      of the remaining fields. */
  lemma ResourceAttributesSkipIds(r: Resource, render: Value -> string)
    ensures Flatten(ResourceFields(r), render) == Flatten(ResourceFields(r)[3..], render)
  {
    var fs := ResourceFields(r);
    assert Keys(fs)[0] == "resourceID" && Keys(fs)[1] == "resourceName" && Keys(fs)[2] == "resourceType";
    SkippedPrefix(fs, 3, render);
  }

  /** Dropping leading fields that are all skipped does not change the attribute list. */
  lemma {:induction false} SkippedPrefix(fs: seq<Entry>, n: nat, render: Value -> string)
    requires n <= |fs|
    requires forall i :: 0 <= i < n ==> Skipped(fs[i].key)
    ensures Flatten(fs, render) == Flatten(fs[n..], render)
    decreases |fs|
  {
    if |fs| > n {
      var init := fs[..|fs| - 1];
      SkippedPrefix(init, n, render);
      assert fs[n..][..|fs[n..]| - 1] == init[n..];
      assert fs[n..][|fs[n..]| - 1] == fs[|fs| - 1];
    } else {
      assert fs[n..] == [];
      SkippedAll(fs, render);
    }
  }

  /** A list of skipped fields yields no attribute. */
  lemma {:induction false} SkippedAll(fs: seq<Entry>, render: Value -> string)
    requires forall i :: 0 <= i < |fs| ==> Skipped(fs[i].key)
    ensures Flatten(fs, render) == []
    decreases |fs|
  {
    if fs != [] {
      SkippedAll(fs[..|fs| - 1], render);
    }
  }

  /** The registration record built for a resource. */
  function ResourceConfig(r: Resource, render: Value -> string): VenResource {
    VenResource(r.resourceID, r.resourceName, r.resourceType, Flatten(ResourceFields(r), render))
  }

  /** The registration records of some resources, in order. */
  function Configs(rs: seq<Resource>, render: Value -> string): (cs: seq<VenResource>)
    ensures |cs| == |rs|
    decreases |rs|
  {
    if rs == [] then [] else Configs(rs[..|rs| - 1], render) + [ResourceConfig(rs[|rs| - 1], render)]
  }

  /** The `i`-th record is the record of the `i`-th resource. */
  lemma {:induction false} ConfigsAt(rs: seq<Resource>, render: Value -> string, i: int)
    requires 0 <= i < |rs|
    ensures Configs(rs, render)[i] == ResourceConfig(rs[i], render)
    decreases |rs|
  {
    var init := rs[..|rs| - 1];
    var cs := Configs(init, render);
    assert Configs(rs, render) == cs + [ResourceConfig(rs[|rs| - 1], render)];
    if i < |rs| - 1 {
      ConfigsAt(init, render, i);
      assert Configs(rs, render)[i] == cs[i];
    }
  }

  /** One more resource adds its record at the end. */
  lemma ConfigsStep(rs: seq<Resource>, render: Value -> string, n: nat)
    requires n < |rs|
    ensures Configs(rs[..n + 1], render) == Configs(rs[..n], render) + [ResourceConfig(rs[n], render)]
  {
    assert rs[..n + 1][..n] == rs[..n];
  }

  // ---------------------------------------------------------------------------------------
  // Records and the status rules of the server calls
  // ---------------------------------------------------------------------------------------

  datatype VenConfig = VenConfig(venName: string, clientName: string)

  datatype VenResource = VenResource(resourceId: string, resourceName: string, resourceType: string,
                                     attributes: seq<Attribute>)

  datatype VenCredentials = VenCredentials(venId: string, venName: string, authToken: string)

  datatype EventData = EventData(id: string, eventName: string, programId: string, startDate: string,
                                 endDate: string, status: string, modificationNumber: int)

  /**
   * What a request to the server came to: it failed before a response (connection error,
   * missing session), or a response arrived with a status code and a body that either
   * decoded as JSON of the expected shape or did not.
   */
  datatype HttpOutcome<B> = Failed | Reply(status: int, body: Option<B>)

  /** How a registration endpoint answered. */
  datatype RegistrationOutcome = Created | AlreadyExists | Rejected

  /** The status rule shared by both registration calls: 201 is success, 409 means the entity
      already exists, every other code is a failure. */
  function ClassifyRegistration(status: int): (o: RegistrationOutcome)
    ensures o == Created <==> status == 201
    ensures o == AlreadyExists <==> status == 409
    ensures o == Rejected <==> status != 201 && status != 409
  {
    if status == 201 then Created else if status == 409 then AlreadyExists else Rejected
  }

  /** The credentials read from a 201 reply body: fields `id`, `ven_name` and `auth_token`; a
      missing one raises `KeyError`, modelled as no credentials. */
  function CredentialsFrom(body: Option<map<string, string>>): (c: Option<VenCredentials>)
    ensures c.Some? <==> body.Some? && "id" in body.value && "ven_name" in body.value && "auth_token" in body.value
    ensures c.Some? ==>
      c.value.venId == body.value["id"] && c.value.venName == body.value["ven_name"]
      && c.value.authToken == body.value["auth_token"]
  {
    match body
    case Some(d) =>
      if "id" in d && "ven_name" in d && "auth_token" in d
      then Some(VenCredentials(d["id"], d["ven_name"], d["auth_token"]))
      else None
    case None => None
  }

  /** Whether a resource registration request returns True: the client has a bearer token (else
      building the header raises), the server answered 201 and the body decoded. */
  predicate ResourceAccepted(bearer: Option<string>, outcome: HttpOutcome<Value>) {
    bearer.Some? && outcome.Reply? && ClassifyRegistration(outcome.status) == Created && outcome.body.Some?
  }

  /** Whether each of the first `n` resource registrations is accepted, in order. */
  function Acceptances(bearer: Option<string>, outcomes: nat -> HttpOutcome<Value>, n: nat): (bs: seq<bool>)
    ensures |bs| == n
  {
    if n == 0 then [] else Acceptances(bearer, outcomes, n - 1) + [ResourceAccepted(bearer, outcomes(n - 1))]
  }

  /** The `i`-th entry says whether the `i`-th registration is accepted. */
  lemma {:induction false} AcceptancesAt(bearer: Option<string>, outcomes: nat -> HttpOutcome<Value>, n: nat, i: nat)
    requires i < n
    ensures Acceptances(bearer, outcomes, n)[i] == ResourceAccepted(bearer, outcomes(i))
  {
    if i < n - 1 {
      AcceptancesAt(bearer, outcomes, n - 1, i);
    }
  }

  /** `active_events` after polling: each event whose id is not tracked yet is added, in order;
      a tracked id keeps its first event. */
  function AddNewEvents(active: map<string, EventData>, events: seq<EventData>): map<string, EventData>
    decreases |events|
  {
    if events == [] then active
    else
      var last := events[|events| - 1];
      var before := AddNewEvents(active, events[..|events| - 1]);
      if last.id in before then before else before[last.id := last]
  }

  /** Polling never overwrites or drops a tracked event, and tracks every polled id. */
  lemma {:induction false} AddNewEventsKeeps(active: map<string, EventData>, events: seq<EventData>)
    ensures forall k :: k in active ==> k in AddNewEvents(active, events) && AddNewEvents(active, events)[k] == active[k]
    ensures forall i :: 0 <= i < |events| ==> events[i].id in AddNewEvents(active, events)
    ensures forall k :: k in AddNewEvents(active, events) ==>
      k in active || exists i :: 0 <= i < |events| && events[i].id == k
    decreases |events|
  {
    if events != [] {
      var init := events[..|events| - 1];
      AddNewEventsKeeps(active, init);
      forall k | k in AddNewEvents(active, events) && k !in active
        ensures exists i :: 0 <= i < |events| && events[i].id == k
      {
        if k in AddNewEvents(active, init) {
          var i :| 0 <= i < |init| && init[i].id == k;
          assert events[i].id == k;
        } else {
          assert events[|events| - 1].id == k;
        }
      }
      forall i | 0 <= i < |events| ensures events[i].id in AddNewEvents(active, events) {
        if i < |events| - 1 {
          assert init[i].id == events[i].id;
        }
      }
    }
  }

  /** A newly tracked id holds the first polled event with that id. */
  lemma {:induction false} AddNewEventsFirst(active: map<string, EventData>, events: seq<EventData>, i: int)
    requires 0 <= i < |events| && events[i].id !in active
    requires forall j :: 0 <= j < i ==> events[j].id != events[i].id
    ensures events[i].id in AddNewEvents(active, events)
    ensures AddNewEvents(active, events)[events[i].id] == events[i]
    decreases |events|
  {
    AddNewEventsKeeps(active, events[..i]);
    assert events[..i + 1][..i] == events[..i];
    assert forall j :: 0 <= j < |events[..i]| ==> events[..i][j].id != events[i].id;
    AddNewEventsSuffix(active, events[..i + 1], events[i + 1..]);
    assert events[..i + 1] + events[i + 1..] == events;
  }

  /** Polling more events keeps what earlier ones added. */
  lemma {:induction false} AddNewEventsSuffix(active: map<string, EventData>, a: seq<EventData>, b: seq<EventData>)
    ensures forall k :: k in AddNewEvents(active, a) ==>
      k in AddNewEvents(active, a + b) && AddNewEvents(active, a + b)[k] == AddNewEvents(active, a)[k]
    decreases |b|
  {
    if b == [] {
      assert a + b == a;
    } else {
      AddNewEventsSuffix(active, a, b[..|b| - 1]);
      assert (a + b)[..|a + b| - 1] == a + b[..|b| - 1];
    }
  }

  /** The longest prefix of decoded event records (a record missing a field raises `KeyError`). */
  function DecodedPrefix(records: seq<Option<EventData>>): (events: seq<EventData>)
    ensures |events| <= |records|
    ensures forall i :: 0 <= i < |events| ==> records[i] == Some(events[i])
    ensures |events| < |records| ==> records[|events|].None?
    decreases |records|
  {
    if records == [] || records[0].None? then []
    else [records[0].value] + DecodedPrefix(records[1..])
  }

  /** A run of decoded records that stops at the end or at the first record that fails to
      decode is the decoded prefix. */
  lemma {:induction false} DecodedPrefixIs(records: seq<Option<EventData>>, p: seq<EventData>)
    requires |p| <= |records| && forall j :: 0 <= j < |p| ==> records[j] == Some(p[j])
    requires |p| == |records| || records[|p|].None?
    ensures DecodedPrefix(records) == p
    decreases |records|
  {
    if p != [] {
      assert forall j :: 0 <= j < |p| - 1 ==> records[1..][j] == Some(p[1..][j]);
      DecodedPrefixIs(records[1..], p[1..]);
      assert p == [p[0]] + p[1..];
    }
  }

  // ---------------------------------------------------------------------------------------
  // The VEN client
  // ---------------------------------------------------------------------------------------

  class VenClient {
    const config: VenConfig
    const bearerToken: Option<string>
    var credentials: Option<VenCredentials>
    var activeEvents: map<string, EventData>
    var resources: map<string, VenResource>

    constructor (config: VenConfig, bearerToken: Option<string>)
      ensures this.config == config && this.bearerToken == bearerToken
      ensures credentials.None? && activeEvents == map[] && resources == map[]
    {
      this.config := config;
      this.bearerToken := bearerToken;
      credentials := None;
      activeEvents := map[];
      resources := map[];
    }

    /** `_get_auth_headers()`: raises `ValueError` before registration, otherwise the bearer
        header with the VEN's own token and the JSON content type. */
    function AuthHeaders(): (h: Result<map<string, string>, string>)
      reads this
      ensures h.Err? <==> credentials.None?
      ensures h.Ok? ==> h.value.Keys == {"Authorization", "Content-Type"}
      ensures h.Ok? ==> h.value["Authorization"] == "Bearer " + credentials.value.authToken
      ensures h.Ok? ==> h.value["Content-Type"] == "application/json"
    {
      match credentials
      case None => Err("VEN not registered. Call register() first.")
      case Some(c) => Ok(map["Authorization" := "Bearer " + c.authToken, "Content-Type" := "application/json"])
    }

    /** `register_ven()` with the server's answer given as `outcome`. */
    method RegisterVen(outcome: HttpOutcome<map<string, string>>) returns (ok: bool)
      modifies this
      ensures ok <==> bearerToken.Some? && outcome.Reply? && ClassifyRegistration(outcome.status) == Created
                      && CredentialsFrom(outcome.body).Some?
      ensures ok ==> credentials == CredentialsFrom(outcome.body)
      ensures !ok ==> credentials == old(credentials)
      ensures activeEvents == old(activeEvents) && resources == old(resources)
    {
      if bearerToken.None? {
        return false;
      }
      match outcome
      case Failed =>
        ok := false;
      case Reply(status, body) =>
        var answer := ClassifyRegistration(status);
        if answer == Created {
          var c := CredentialsFrom(body);
          if c.Some? {
            credentials := c;
            ok := true;
          } else {
            ok := false;
          }
        } else {
          ok := false;
        }
    }

    /** `register_ven_resource(config)`: nothing of the client changes. */
    method RegisterVenResource(res: VenResource, outcome: HttpOutcome<Value>) returns (ok: bool)
      ensures ok <==> ResourceAccepted(bearerToken, outcome)
    {
      if bearerToken.None? {
        return false;
      }
      match outcome
      case Failed =>
        ok := false;
      case Reply(status, body) =>
        ok := ClassifyRegistration(status) == Created && body.Some?;
    }

    /** The loop of `register_ven_and_resources` over the resource map: build each record and
        send its registration. */
    method RegisterResources(rs: seq<Resource>, outcomes: nat -> HttpOutcome<Value>, render: Value -> string)
      returns (configs: seq<VenResource>, results: seq<bool>)
      ensures configs == Configs(rs, render)
      ensures |results| == |rs|
      ensures forall i :: 0 <= i < |rs| ==> (results[i] <==> ResourceAccepted(bearerToken, outcomes(i)))
    {
      configs := [];
      results := [];
      for i := 0 to |rs|
        invariant configs == Configs(rs[..i], render)
        invariant results == Acceptances(bearerToken, outcomes, i)
      {
        var config := BuildConfig(rs[i], render);
        ConfigsStep(rs, render, i);
        configs := configs + [config];
        var accepted := RegisterVenResource(config, outcomes(i));
        results := results + [accepted];
      }
      assert rs[..|rs|] == rs;
      forall i | 0 <= i < |rs| ensures results[i] <==> ResourceAccepted(bearerToken, outcomes(i)) {
        AcceptancesAt(bearerToken, outcomes, |rs|, i);
      }
    }

    /** Storing the registration records in `resources`, each under its id. */
    method StoreResources(configs: seq<VenResource>)
      modifies this
      ensures resources == StoreConfigs(old(resources), configs)
      ensures credentials == old(credentials) && activeEvents == old(activeEvents)
    {
      ghost var start := resources;
      for i := 0 to |configs|
        invariant resources == StoreConfigs(start, configs[..i])
        invariant credentials == old(credentials) && activeEvents == old(activeEvents)
      {
        resources := resources[configs[i].resourceId := configs[i]];
        assert configs[..i + 1][..i] == configs[..i];
      }
      assert configs[..|configs|] == configs;
    }

    /**
     * `poll_events()` with the server's answer given as `outcome`. Without credentials the
     * header cannot be built and nothing is requested. On a 200 reply each decoded record is
     * tracked if its id is new; a record that fails to decode ends the call with an empty list,
     * and what was tracked before it stays tracked.
     */
    method PollEvents(outcome: HttpOutcome<seq<Option<EventData>>>) returns (events: seq<EventData>)
      modifies this`activeEvents
      ensures activeEvents == if credentials.Some? && outcome.Reply? && outcome.status == 200 && outcome.body.Some?
                              then AddNewEvents(old(activeEvents), DecodedPrefix(outcome.body.value))
                              else old(activeEvents)
      ensures events == if credentials.Some? && outcome.Reply? && outcome.status == 200 && outcome.body.Some?
                           && |DecodedPrefix(outcome.body.value)| == |outcome.body.value|
                        then DecodedPrefix(outcome.body.value)
                        else []
    {
      var headers := AuthHeaders();
      if headers.Err? {
        return [];
      }
      if !(outcome.Reply? && outcome.status == 200 && outcome.body.Some?) {
        return [];
      }
      var records := outcome.body.value;
      ghost var start := activeEvents;
      var polled: seq<EventData> := [];
      var i := 0;
      while i < |records|
        invariant 0 <= i <= |records| && |polled| == i
        invariant forall j :: 0 <= j < i ==> records[j] == Some(polled[j])
        invariant activeEvents == AddNewEvents(start, polled)
      {
        match records[i]
        case None =>
          DecodedPrefixIs(records, polled);
          return [];
        case Some(event) =>
          assert (polled + [event])[..i] == polled;
          polled := polled + [event];
          if event.id !in activeEvents {
            activeEvents := activeEvents[event.id := event];
          }
          i := i + 1;
      }
      DecodedPrefixIs(records, polled);
      events := polled;
    }
  }

  // ---------------------------------------------------------------------------------------
  // The VEN manager
  // ---------------------------------------------------------------------------------------

  /** `ven.resources` after storing the registration records in order: each under its id, a
      later record with the same id replacing the earlier one. */
  function StoreConfigs(stored: map<string, VenResource>, configs: seq<VenResource>): (m: map<string, VenResource>)
    ensures forall k :: k in m <==> k in stored || exists i :: 0 <= i < |configs| && configs[i].resourceId == k
    decreases |configs|
  {
    if configs == [] then stored
    else
      var init := configs[..|configs| - 1];
      var last := configs[|configs| - 1];
      var m := StoreConfigs(stored, init)[last.resourceId := last];
      assert forall k :: k in m <==> k in stored || exists i :: 0 <= i < |configs| && configs[i].resourceId == k by {
        forall k ensures k in m <==> k in stored || exists i :: 0 <= i < |configs| && configs[i].resourceId == k {
          if exists i :: 0 <= i < |init| && init[i].resourceId == k {
            var i :| 0 <= i < |init| && init[i].resourceId == k;
            assert configs[i].resourceId == k;
          }
          if exists i :: 0 <= i < |configs| && configs[i].resourceId == k {
            var i :| 0 <= i < |configs| && configs[i].resourceId == k;
            if i < |init| { assert init[i].resourceId == k; }
          }
        }
      }
      m
  }

  /** Each stored id holds the last record carrying it. */
  lemma {:induction false} StoreConfigsLast(stored: map<string, VenResource>, configs: seq<VenResource>, i: int)
    requires 0 <= i < |configs|
    requires forall j :: i < j < |configs| ==> configs[j].resourceId != configs[i].resourceId
    ensures StoreConfigs(stored, configs)[configs[i].resourceId] == configs[i]
    decreases |configs|
  {
    if i < |configs| - 1 {
      StoreConfigsLast(stored, configs[..|configs| - 1], i);
    }
  }

  /** `sum(1 for result in results if result is True)`. */
  function CountTrue(results: seq<bool>): nat
    decreases |results|
  {
    if results == [] then 0 else (if results[0] then 1 else 0) + CountTrue(results[1..])
  }

  /** The count of successes is positive exactly when some result is a success. */
  lemma {:induction false} CountTrueExists(results: seq<bool>)
    ensures CountTrue(results) > 0 <==> exists i :: 0 <= i < |results| && results[i]
    decreases |results|
  {
    if results != [] {
      CountTrueExists(results[1..]);
      if exists i :: 0 <= i < |results[1..]| && results[1..][i] {
        var i :| 0 <= i < |results[1..]| && results[1..][i];
        assert results[i + 1];
      }
      if exists i :: 0 <= i < |results| && results[i] {
        var i :| 0 <= i < |results| && results[i];
        if i > 0 { assert results[1..][i - 1]; }
      }
    }
  }

  class VenManager {
    const bearerToken: Option<string>
    var vens: map<string, VenClient>

    constructor (bearerToken: Option<string>)
      ensures this.bearerToken == bearerToken && vens == map[]
    {
      this.bearerToken := bearerToken;
      vens := map[];
    }

    /**
     * `register_ven_and_resources(ven_id, resource_map)` with `resources` the values of the
     * resource map in order, `venOutcome` the server's answer to the VEN registration and
     * `outcomes(i)` its answer to the registration of the i-th resource. A fresh client is
     * stored under `venId`; its registration result does not stop the resource registrations.
     * The call returns whether at least one resource registration succeeded.
     */
    method RegisterVenAndResources(venId: string, resources: seq<Resource>,
                                   venOutcome: HttpOutcome<map<string, string>>,
                                   outcomes: nat -> HttpOutcome<Value>,
                                   render: Value -> string) returns (ok: bool)
      modifies this
      ensures venId in vens && fresh(vens[venId])
      ensures vens == old(vens)[venId := vens[venId]]
      ensures vens[venId].config == VenConfig(venId, "Client_" + venId)
      ensures vens[venId].credentials ==
        if bearerToken.Some? && venOutcome.Reply? && venOutcome.status == 201 then CredentialsFrom(venOutcome.body) else None
      ensures vens[venId].activeEvents == map[]
      ensures vens[venId].resources == StoreConfigs(map[], Configs(resources, render))
      ensures ok <==> exists i :: 0 <= i < |resources| && ResourceAccepted(bearerToken, outcomes(i))
    {
      var ven := new VenClient(VenConfig(venId, "Client_" + venId), bearerToken);
      vens := vens[venId := ven];
      var _ := ven.RegisterVen(venOutcome);
      var configs, results := ven.RegisterResources(resources, outcomes, render);
      ven.StoreResources(configs);
      CountTrueExists(results);
      ok := CountTrue(results) > 0;
    }
  }
}
