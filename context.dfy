/**
 * The application context of venclient/context.py: one shared registry that maps names to the
 * long-lived objects (the VEN manager, the simulator) the scheduled tasks look up.
 */
module Context {
  import opened Strings

  /** The registry. Python's dictionary keeps its keys in insertion order, which `order` records. */
  class ApplicationContext {
    var objects: map<string, object?>
    var order: seq<string>

    /** `order` lists every registered name exactly once. */
    ghost predicate Valid()
      reads this
    {
      (forall i, j :: 0 <= i < j < |order| ==> order[i] != order[j])
      && (forall k :: k in objects <==> k in order)
    }

    /** The first construction: an empty registry. */
    constructor ()
      ensures Valid()
      ensures objects == map[] && order == []
    {
      objects := map[];
      order := [];
    }

    /** `get(name)`: the registered object, or `None` for a name never registered. */
    function Get(name: string): (o: object?)
      reads this
      ensures name in objects ==> o == objects[name]
      ensures name !in objects ==> o == null
    {
      if name in objects then objects[name] else null
    }

    /** `has(name)`: whether `name` is a key of the registry, even one registered as `None`. */
    predicate Has(name: string): (b: bool)
      reads this
      ensures Valid() ==> (b <==> name in order)
      ensures !b ==> Get(name) == null
    {
      name in objects
    }

    /** `list_registered()`: exactly the registered names, each once, in registration order. */
    function ListRegistered(): (names: seq<string>)
      requires Valid()
      reads this
      ensures forall k :: k in names <==> Has(k)
      ensures forall i, j :: 0 <= i < j < |names| ==> names[i] != names[j]
      ensures |names| == |objects|
    {
      DistinctCardinality(order, objects.Keys);
      order
    }

    /** `register(name, obj)`: a new name goes last, a re-registered one keeps its place and now
        holds `obj`. */
    method Register(name: string, obj: object?)
      requires Valid()
      modifies this
      ensures Valid()
      ensures objects == old(objects)[name := obj]
      ensures order == if name in old(objects) then old(order) else old(order) + [name]
      ensures Get(name) == obj && Has(name)
    {
      if name !in objects {
        order := order + [name];
      }
      objects := objects[name := obj];
    }

    /** `unregister(name)`: removes that one name; a name not registered changes nothing. */
    method Unregister(name: string)
      requires Valid()
      modifies this
      ensures Valid()
      ensures objects == old(objects) - {name}
      ensures order == Without(old(order), name)
      ensures name !in old(objects) ==> objects == old(objects) && order == old(order)
      ensures !Has(name) && Get(name) == null
    {
      if name in objects {
        objects := objects - {name};
        WithoutMembers(order, name);
        order := Without(order, name);
      } else {
        WithoutMissing(order, name);
      }
    }

    /** `clear()`. */
    method Clear()
      requires Valid()
      modifies this
      ensures Valid()
      ensures objects == map[] && order == []
      ensures ListRegistered() == []
    {
      objects := map[];
      order := [];
    }
  }

  /** `s` with every occurrence of `x` removed. */
  function Without(s: seq<string>, x: string): (r: seq<string>)
    ensures forall k :: k in r <==> k in s && k != x
    decreases |s|
  {
    if s == [] then []
    else if s[0] == x then Without(s[1..], x)
    else [s[0]] + Without(s[1..], x)
  }

  /** Removing a name from a sequence without repetitions keeps it without repetitions. */
  lemma {:induction false} WithoutMembers(s: seq<string>, x: string)
    requires forall i, j :: 0 <= i < j < |s| ==> s[i] != s[j]
    ensures forall i, j :: 0 <= i < j < |Without(s, x)| ==> Without(s, x)[i] != Without(s, x)[j]
    decreases |s|
  {
    if s != [] {
      WithoutMembers(s[1..], x);
      var r := Without(s[1..], x);
      if s[0] != x {
        assert s[0] !in s[1..];
        assert s[0] !in r;
        assert Without(s, x) == [s[0]] + r;
      }
    }
  }

  /** Removing a name that does not occur changes nothing. */
  lemma {:induction false} WithoutMissing(s: seq<string>, x: string)
    requires x !in s
    ensures Without(s, x) == s
    decreases |s|
  {
    if s != [] {
      WithoutMissing(s[1..], x);
      assert s == [s[0]] + s[1..];
    }
  }

  /**
   * The class-level singleton slot: `ApplicationContext()` creates the registry on the first
   * call only and afterwards hands back the same instance with its objects untouched.
   */
  class ContextSlot {
    var instance: ApplicationContext?

    constructor ()
      ensures instance == null
    {
      instance := null;
    }

    /** `ApplicationContext()`. */
    method Construct() returns (ctx: ApplicationContext)
      requires instance != null ==> instance.Valid()
      modifies this
      ensures instance == ctx && ctx.Valid()
      ensures old(instance) != null ==> ctx == old(instance) && unchanged(ctx)
      ensures old(instance) == null ==> fresh(ctx) && ctx.objects == map[]
    {
      if instance == null {
        instance := new ApplicationContext();
      }
      ctx := instance;
    }
  }

  /** `get_ven_manager()`: the object registered as `ven_manager` in the shared context. */
  function GetVenManager(ctx: ApplicationContext): (o: object?)
    reads ctx
    ensures o == ctx.Get("ven_manager")
    ensures ctx.Has("ven_manager") ==> o == ctx.objects["ven_manager"]
  {
    ctx.Get("ven_manager")
  }

  /** `get_simulator()`: the object registered as `simulator` in the shared context. */
  function GetSimulator(ctx: ApplicationContext): (o: object?)
    reads ctx
    ensures o == ctx.Get("simulator")
    ensures ctx.Has("simulator") ==> o == ctx.objects["simulator"]
  {
    ctx.Get("simulator")
  }

  /**
   * The registration scenario of the scheduler pattern: once the manager and the simulator are
   * registered, both names are listed and the fixed-name helpers return the very objects
   * registered.
   */
  method RegisterSharedObjects(ctx: ApplicationContext, manager: object, simulator: object)
    requires ctx.Valid()
    modifies ctx
    ensures ctx.Valid()
    ensures ctx.objects == old(ctx.objects)["ven_manager" := manager]["simulator" := simulator]
    ensures "ven_manager" in ctx.ListRegistered() && "simulator" in ctx.ListRegistered()
    ensures GetVenManager(ctx) == manager && GetSimulator(ctx) == simulator
  {
    ctx.Register("ven_manager", manager);
    ctx.Register("simulator", simulator);
  }
}
