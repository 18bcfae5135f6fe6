/**
 * The data model of flex_resources.py: the connection, actor and resource type enumerations,
 * the `Connection` and `Resource` records, and the built-in sample resource.
 */
module FlexResources {
  import opened Wrappers
  import opened Values

  /** How a resource's local asset is reached. */
  datatype ConnectionType = ModbusTcp | Mqtt | FileReader {
    /** The enumeration member's value. */
    function Value(): string {
      match this
      case ModbusTcp => "modbustcp"
      case Mqtt => "mqtt"
      case FileReader => "filereader"
    }
  }

  /** `ConnectionType(s)`: the member whose value is `s`; Python raises `ValueError` for others. */
  function ParseConnectionType(s: string): (r: Option<ConnectionType>)
    ensures r.Some? ==> r.value.Value() == s
  {
    if s == "modbustcp" then Some(ModbusTcp)
    else if s == "mqtt" then Some(Mqtt)
    else if s == "filereader" then Some(FileReader)
    else None
  }

  /** Whether the local asset is read from or written to. */
  datatype ActorType = Reader | Writer {
    function Value(): string {
      match this
      case Reader => "reader"
      case Writer => "writer"
    }
  }

  /** `ActorType(s)`. */
  function ParseActorType(s: string): (r: Option<ActorType>)
    ensures r.Some? ==> r.value.Value() == s
  {
    if s == "reader" then Some(Reader)
    else if s == "writer" then Some(Writer)
    else None
  }

  /** The kind of flexible resource. `Ev` is not declared in flex_resources.py but is used by the
      sample generator, which only ever reads its name. */
  datatype ResourceType = Dsr | Battery | Ev {
    /** The member's name, as `ResourceType.X.name` gives it. */
    function Name(): string {
      match this
      case Dsr => "DSR"
      case Battery => "BATTERY"
      case Ev => "EV"
    }

    /** The member's value, as `ResourceType.X.value` gives it. */
    function Value(): string {
      match this
      case Dsr => "Demand Response"
      case Battery => "Battery"
      case Ev => "EV"
    }
  }

  /** `ResourceType(s)`. */
  function ParseResourceType(s: string): (r: Option<ResourceType>)
    ensures r.Some? ==> r.value.Value() == s
  {
    if s == "Demand Response" then Some(Dsr)
    else if s == "Battery" then Some(Battery)
    else if s == "EV" then Some(Ev)
    else None
  }

  /** Every member is found again from its value, so the values of each enumeration are
      distinct, and the names of the resource types are distinct too. */
  lemma EnumRoundTrip()
    ensures forall t: ConnectionType :: ParseConnectionType(t.Value()) == Some(t)
    ensures forall a: ActorType :: ParseActorType(a.Value()) == Some(a)
    ensures forall t: ResourceType :: ParseResourceType(t.Value()) == Some(t)
    ensures forall t: ResourceType, u: ResourceType :: t.Name() == u.Name() ==> t == u
  {
  }

  datatype Connection = Connection(
    connType: ConnectionType,
    actorType: ActorType,
    host: Option<string>,
    port: Option<int>,
    topic: Option<string>,
    file: Option<string>,
    username: Option<string>,
    password: Option<string>)

  /** `Connection(type=t, actortype=a)`: every optional field takes its default. */
  function NewConnection(t: ConnectionType, a: ActorType): (c: Connection)
    ensures c.connType == t && c.actorType == a
    ensures c.host.None? && c.port.None? && c.topic.None?
    ensures c.file.None? && c.username.None? && c.password.None?
  {
    Connection(t, a, None, None, None, None, None, None)
  }

  /**
   * A flexible resource. `resourceSubType`, `address` and `registrationStatus` are read and
   * written by other parts of the program although flex_resources.py does not declare them;
   * they sit here in the order the sample generator passes them.
   */
  datatype Resource = Resource(
    resourceID: string,
    resourceName: string,
    resourceType: string,
    resourceSubType: string,
    meterPointId: string,
    connection: Connection,
    capacities: seq<Entry>,
    location: seq<Entry>,
    address: string,
    enabled: Option<bool>,
    reporting: Option<seq<Entry>>,
    registrationStatus: Option<string>)

  /** `Resource(...)` given the seven required dataclass fields and the two undeclared ones the
      callers pass (`resourceSubType`, `address`): `enabled`, `reporting` and the registration
      status take their default `None`. */
  function NewResource(id: string, name: string, rtype: string, subType: string, meter: string,
                       conn: Connection, caps: seq<Entry>, loc: seq<Entry>, address: string): (r: Resource)
    ensures r.resourceID == id && r.resourceName == name && r.resourceType == rtype
    ensures r.resourceSubType == subType && r.meterPointId == meter && r.connection == conn
    ensures r.capacities == caps && r.location == loc && r.address == address
    ensures r.enabled.None? && r.reporting.None? && r.registrationStatus.None?
  {
    Resource(id, name, rtype, subType, meter, conn, caps, loc, address, None, None, None)
  }

  /** `resource.registration_status or 'PENDING'`: a missing or empty status reads as PENDING. */
  function EffectiveStatus(r: Resource): (s: string)
    ensures s != ""
    ensures r.registrationStatus.Some? && r.registrationStatus.value != "" ==> s == r.registrationStatus.value
    ensures r.registrationStatus.None? ==> s == "PENDING"
    ensures r.registrationStatus == Some("") ==> s == "PENDING"
  {
    match r.registrationStatus
    case Some(s) => if s == "" then "PENDING" else s
    case None => "PENDING"
  }

  /** The capacity envelope dictionary with keys `P_max_kw`, `P_min_kw`, `E_max_kwh`, `E_min_kwh`. */
  function Capacities(pMax: real, pMin: real, eMax: real, eMin: real): (es: seq<Entry>)
    ensures UniqueKeys(es)
    ensures Keys(es) == ["P_max_kw", "P_min_kw", "E_max_kwh", "E_min_kwh"]
    ensures Lookup(es, "P_max_kw") == Some(Real(pMax)) && Lookup(es, "P_min_kw") == Some(Real(pMin))
    ensures Lookup(es, "E_max_kwh") == Some(Real(eMax)) && Lookup(es, "E_min_kwh") == Some(Real(eMin))
  {
    var es := [Entry("P_max_kw", Real(pMax)), Entry("P_min_kw", Real(pMin)),
               Entry("E_max_kwh", Real(eMax)), Entry("E_min_kwh", Real(eMin))];
    assert UniqueKeys(es);
    LookupAt(es, 0);
    LookupAt(es, 1);
    LookupAt(es, 2);
    LookupAt(es, 3);
    es
  }

  /** The names of the nine fields the `Resource` dataclass declares, in declaration order.
      The three undeclared record fields are not among them, so `fields(r)` does not list them. */
  const ResourceFieldNames: seq<string> := [
    "resourceID", "resourceName", "resourceType", "meterPointId",
    "connection", "capacities", "location", "enabled", "reporting"]

  function OptionalStr(o: Option<string>): Value {
    match o
    case Some(s) => Str(s)
    case None => Null
  }

  /** A connection as the dataclass instance it is (an object, not a dictionary). */
  function ConnectionValue(c: Connection): Value {
    Object("Connection", [
      Entry("type", Str(c.connType.Value())),
      Entry("actortype", Str(c.actorType.Value())),
      Entry("host", OptionalStr(c.host)),
      Entry("port", match c.port case Some(p) => Int(p) case None => Null),
      Entry("topic", OptionalStr(c.topic)),
      Entry("file", OptionalStr(c.file)),
      Entry("username", OptionalStr(c.username)),
      Entry("password", OptionalStr(c.password))])
  }

  /** `[(f.name, getattr(r, f.name)) for f in fields(r)]`. */
  function ResourceFields(r: Resource): (fs: seq<Entry>)
    ensures Keys(fs) == ResourceFieldNames
  {
    [Entry("resourceID", Str(r.resourceID)),
     Entry("resourceName", Str(r.resourceName)),
     Entry("resourceType", Str(r.resourceType)),
     Entry("meterPointId", Str(r.meterPointId)),
     Entry("connection", ConnectionValue(r.connection)),
     Entry("capacities", Dict(r.capacities)),
     Entry("location", Dict(r.location)),
     Entry("enabled", match r.enabled case Some(b) => Bool(b) case None => Null),
     Entry("reporting", match r.reporting case Some(d) => Dict(d) case None => Null)]
  }

  /** `load_flexible_resources()`: the one built-in household resource, keyed by its id. The
      source passes no sub-type and no address; the empty strings in those two fields are this
      model's own choice, because the record here has no missing value for them. */
  function LoadFlexibleResources(): (rs: map<string, Resource>)
    ensures "HOUSEHOLD_1" in rs && |rs| == 1
    ensures rs["HOUSEHOLD_1"].resourceID == "HOUSEHOLD_1"
    ensures rs["HOUSEHOLD_1"].resourceType == Dsr.Value()
    ensures rs["HOUSEHOLD_1"].enabled == Some(true)
    ensures rs["HOUSEHOLD_1"].reporting.None?
    ensures rs["HOUSEHOLD_1"].capacities == Capacities(6.0, -6.0, 24.0, 0.0)
    ensures rs["HOUSEHOLD_1"].connection.connType == FileReader
    ensures rs["HOUSEHOLD_1"].connection.actorType == Reader
  {
    var conn := NewConnection(FileReader, Reader).(file := Some("./data/elhub_smartmeter_707057500054134059.csv"));
    var location := [Entry("address", Str("Testveien 1, 1234 Teststed")),
                     Entry("latitude", Real(60.123456)),
                     Entry("longitude", Real(10.123456))];
    var r1 := Resource("HOUSEHOLD_1", "Household 1", Dsr.Value(), "", "707057500054134059", conn,
                       Capacities(6.0, -6.0, 24.0, 0.0), location, "", Some(true), None, None);
    map["HOUSEHOLD_1" := r1]
  }
}
