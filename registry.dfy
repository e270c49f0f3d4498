/** The simulation context: the id counter, the stored topology objects and
    links, the lookups over them, and the three factory functions. */
module Registry {
  import opened Wrappers
  import opened Exceptions
  import opened Entities
  import opened Links

  /** `filter(lambda o: isinstance(o, cls), objects)`, as a sequence. */
  function OfClass(objects: seq<TopologyObject>, cls: EntityClass): (r: seq<TopologyObject>)
    ensures |r| <= |objects|
    ensures forall o :: o in r ==> o in objects && IsInstance(o.kind, cls)
    ensures forall o :: o in objects && IsInstance(o.kind, cls) ==> o in r
  {
    if objects == [] then []
    else (if IsInstance(objects[0].kind, cls) then [objects[0]] else []) + OfClass(objects[1..], cls)
  }

  /** Filtering commutes with concatenation: the filter keeps the objects in
      the order they were stored. */
  lemma {:induction false} OfClassAppend(a: seq<TopologyObject>, b: seq<TopologyObject>, cls: EntityClass)
    ensures OfClass(a + b, cls) == OfClass(a, cls) + OfClass(b, cls)
  {
    if a == [] {
      assert a + b == b;
    } else {
      assert (a + b)[1..] == a[1..] + b;
      OfClassAppend(a[1..], b, cls);
    }
  }

  /** The first object the filter yields is the first stored instance. */
  lemma {:induction false} OfClassFirst(objects: seq<TopologyObject>, cls: EntityClass, i: nat)
    requires i < |objects| && IsInstance(objects[i].kind, cls)
    requires forall j :: 0 <= j < i ==> !IsInstance(objects[j].kind, cls)
    ensures OfClass(objects, cls) != [] && OfClass(objects, cls)[0] == objects[i]
  {
    if i > 0 {
      OfClassFirst(objects[1..], cls, i - 1);
    }
  }

  /** Each instance is yielded as often as it is stored, every other object
      never. */
  lemma {:induction false} OfClassCount(objects: seq<TopologyObject>, cls: EntityClass, o: TopologyObject)
    ensures multiset(OfClass(objects, cls))[o]
         == if IsInstance(o.kind, cls) then multiset(objects)[o] else 0
  {
    if objects != [] {
      assert objects == [objects[0]] + objects[1..];
      OfClassCount(objects[1..], cls, o);
    }
  }

  /** Filtering by TopologyObject keeps everything. */
  lemma {:induction false} OfTopologyObjectClassIsAll(objects: seq<TopologyObject>)
    ensures OfClass(objects, TopologyObjectClass) == objects
  {
    if objects != [] {
      EveryObjectIsATopologyObject(objects[0].kind);
      OfTopologyObjectClassIsAll(objects[1..]);
    }
  }

  /** `filter(lambda o: o.satellite_id == k, satellites)`, as a sequence. */
  function WithSatelliteId(satellites: seq<TopologyObject>, k: int): (r: seq<TopologyObject>)
    reads set o | o in satellites
    ensures |r| <= |satellites|
    ensures forall o :: o in r ==> o in satellites && o.satelliteId == Some(k)
    ensures forall o :: o in satellites && o.satelliteId == Some(k) ==> o in r
  {
    if satellites == [] then []
    else (if satellites[0].satelliteId == Some(k) then [satellites[0]] else [])
         + WithSatelliteId(satellites[1..], k)
  }

  /** The id filter commutes with concatenation: it keeps the satellites in
      the order they were stored. */
  lemma {:induction false} WithSatelliteIdAppend(a: seq<TopologyObject>, b: seq<TopologyObject>, k: int)
    ensures WithSatelliteId(a + b, k) == WithSatelliteId(a, k) + WithSatelliteId(b, k)
  {
    if a == [] {
      assert a + b == b;
    } else {
      assert (a + b)[1..] == a[1..] + b;
      WithSatelliteIdAppend(a[1..], b, k);
    }
  }

  /** Each object with the key is yielded as often as it is given, every
      other object never. */
  lemma {:induction false} WithSatelliteIdCount(satellites: seq<TopologyObject>, k: int, o: TopologyObject)
    ensures multiset(WithSatelliteId(satellites, k))[o]
         == if o.satelliteId == Some(k) then multiset(satellites)[o] else 0
  {
    if satellites != [] {
      assert satellites == [satellites[0]] + satellites[1..];
      WithSatelliteIdCount(satellites[1..], k, o);
    }
  }

  /** A satellite whose `satellite_id` is `k`. */
  predicate IsSatelliteWithId(o: TopologyObject, k: int)
    reads o
  {
    IsInstance(o.kind, SatelliteClass) && o.satelliteId == Some(k)
  }

  /** The first satellite the two filters yield together is the first stored
      satellite with that `satellite_id`. */
  lemma {:induction false} SatellitesFirst(objects: seq<TopologyObject>, k: int, i: nat)
    requires i < |objects| && IsSatelliteWithId(objects[i], k)
    requires forall j :: 0 <= j < i ==> !IsSatelliteWithId(objects[j], k)
    ensures WithSatelliteId(OfClass(objects, SatelliteClass), k) != []
    ensures WithSatelliteId(OfClass(objects, SatelliteClass), k)[0] == objects[i]
  {
    var x, rest := objects[0], OfClass(objects[1..], SatelliteClass);
    if IsInstance(x.kind, SatelliteClass) {
      assert OfClass(objects, SatelliteClass) == [x] + rest;
      assert ([x] + rest)[1..] == rest;
    } else {
      assert OfClass(objects, SatelliteClass) == rest;
    }
    if i > 0 {
      SatellitesFirst(objects[1..], k, i - 1);
    }
  }

  /** The two filters together yield exactly the stored satellites with
      `satellite_id` `k`, the first of them first. */
  lemma SatelliteLookup(objects: seq<TopologyObject>, k: int)
    ensures forall o :: o in WithSatelliteId(OfClass(objects, SatelliteClass), k)
                ==> o in objects && IsSatelliteWithId(o, k)
    ensures forall o :: o in objects && IsSatelliteWithId(o, k)
                ==> o in WithSatelliteId(OfClass(objects, SatelliteClass), k)
    ensures (exists o :: o in objects && IsSatelliteWithId(o, k))
                ==> && WithSatelliteId(OfClass(objects, SatelliteClass), k) != []
                    && WithSatelliteId(OfClass(objects, SatelliteClass), k)[0]
                       == objects[FirstSatelliteIndex(objects, k)]
  {
    if exists o :: o in objects && IsSatelliteWithId(o, k) {
      SatellitesFirst(objects, k, FirstSatelliteIndex(objects, k));
    }
  }

  /** The two filters together yield each stored satellite with the key as
      often as it is stored, every other object never. */
  lemma SatelliteCount(objects: seq<TopologyObject>, k: int, o: TopologyObject)
    ensures multiset(WithSatelliteId(OfClass(objects, SatelliteClass), k))[o]
         == if IsSatelliteWithId(o, k) then multiset(objects)[o] else 0
  {
    OfClassCount(objects, SatelliteClass, o);
    WithSatelliteIdCount(OfClass(objects, SatelliteClass), k, o);
  }

  /** The registry. */
  class Simulation {
    var availableIdIndex: int
    var topologyObjects: seq<TopologyObject>
    var connectionLinks: seq<Link>

    /** A fresh simulation: counter 0, nothing stored. */
    constructor ()
      ensures availableIdIndex == 0 && topologyObjects == [] && connectionLinks == []
    {
      availableIdIndex := 0;
      topologyObjects := [];
      connectionLinks := [];
    }

    /** `request_an_id()`: hands out the counter's value and advances it. */
    method RequestAnId() returns (id: int)
      modifies this`availableIdIndex
      ensures id == old(availableIdIndex) && availableIdIndex == old(availableIdIndex) + 1
    {
      id := availableIdIndex;
      availableIdIndex := availableIdIndex + 1;
    }

    /** `get_object_from_type(cls)`: the stored instances of `cls`, including
        instances of its subclasses, in storage order. */
    function GetObjectFromType(cls: EntityClass): (r: seq<TopologyObject>)
      reads this
      ensures forall o :: o in r ==> o in topologyObjects && IsInstance(o.kind, cls)
      ensures forall o :: o in topologyObjects && IsInstance(o.kind, cls) ==> o in r
      ensures forall o :: o in topologyObjects ==> multiset(r)[o] == if IsInstance(o.kind, cls) then multiset(topologyObjects)[o] else 0
    {
      forall o | o in topologyObjects
        ensures multiset(OfClass(topologyObjects, cls))[o]
             == if IsInstance(o.kind, cls) then multiset(topologyObjects)[o] else 0
      {
        OfClassCount(topologyObjects, cls, o);
      }
      OfClass(topologyObjects, cls)
    }

    /** Every stored satellite has its `satellite_id` assigned, so the id
        filter can read it. */
    predicate StoredSatellitesHaveIds()
      reads this, topologyObjects
    {
      forall o :: o in topologyObjects && IsInstance(o.kind, SatelliteClass) ==> o.satelliteId.Some?
    }

    /** `get_satellites(k)`: the stored satellites whose `satellite_id` is `k`,
        in storage order. */
    function GetSatellites(k: int): (r: seq<TopologyObject>)
      reads this, topologyObjects
      requires StoredSatellitesHaveIds()
      ensures forall o :: o in r ==> o in topologyObjects && IsSatelliteWithId(o, k)
      ensures forall o :: o in topologyObjects && IsSatelliteWithId(o, k) ==> o in r
      ensures (exists o :: o in topologyObjects && IsSatelliteWithId(o, k))
                ==> r != [] && r[0] == topologyObjects[FirstSatelliteIndex(topologyObjects, k)]
      ensures forall o :: o in topologyObjects ==> multiset(r)[o] == if IsSatelliteWithId(o, k) then multiset(topologyObjects)[o] else 0
    {
      SatelliteLookup(topologyObjects, k);
      forall o | o in topologyObjects
        ensures multiset(WithSatelliteId(OfClass(topologyObjects, SatelliteClass), k))[o]
             == if IsSatelliteWithId(o, k) then multiset(topologyObjects)[o] else 0
      {
        SatelliteCount(topologyObjects, k, o);
      }
      WithSatelliteId(GetObjectFromType(SatelliteClass), k)
    }

    /** The first-match lookup the tests expect: the first stored satellite
        with `satellite_id` `k`, or TopologyObjectNotFoundError. */
    function GetSatellite(k: int): (r: Result<TopologyObject>)
      reads this, topologyObjects
      requires StoredSatellitesHaveIds()
      ensures r.Err? <==> forall o :: o in topologyObjects ==> !IsSatelliteWithId(o, k)
      ensures r.Err? ==> r.error == TopologyObjectNotFound
      ensures r.Ok? ==> exists i :: 0 <= i < |topologyObjects| && topologyObjects[i] == r.value
                          && IsSatelliteWithId(topologyObjects[i], k)
                          && forall j :: 0 <= j < i ==> !IsSatelliteWithId(topologyObjects[j], k)
    {
      var matches := GetSatellites(k);
      if matches == [] then Err(TopologyObjectNotFound)
      else
        assert matches[0] in matches;
        Ok(matches[0])
    }

    /** `create_bi_directional_connection(a, b)`: one inter-satellite link,
        connected from `a` to `b` and then from `b` to `a`, stored and
        returned; a rejected first connect raises and stores nothing. */
    method CreateBiDirectionalConnection(a: TopologyObject, b: TopologyObject) returns (r: Result<Link>)
      modifies this`connectionLinks
      ensures r.Ok? <==> a.kind == SatelliteClass && b.kind == SatelliteClass && a != b
      ensures r.Err? ==>
                && r == Err(ConnectError(InterSatelliteLink, a, b).value)
                && connectionLinks == old(connectionLinks)
      ensures r.Ok? ==>
                && fresh(r.value) && r.value.variant == InterSatelliteLink
                && r.value.source == b && r.value.destination == a && r.value.Valid()
                && connectionLinks == old(connectionLinks) + [r.value]
    {
      InterSatelliteConnectRule(a, b);
      InterSatelliteConnectSymmetric(a, b);
      var isl := new Link(InterSatelliteLink);
      var forward := isl.Connect(a, b);
      if forward.Err? {
        return Err(forward.error);
      }
      var backward := isl.Connect(b, a);
      assert backward == Ok(());
      connectionLinks := connectionLinks + [isl];
      r := Ok(isl);
    }
  }

  /** The index of the first stored satellite with `satellite_id` `k`. */
  function FirstSatelliteIndex(objects: seq<TopologyObject>, k: int): (i: nat)
    reads objects
    requires exists o :: o in objects && IsSatelliteWithId(o, k)
    ensures i < |objects| && IsSatelliteWithId(objects[i], k)
    ensures forall j :: 0 <= j < i ==> !IsSatelliteWithId(objects[j], k)
  {
    if IsSatelliteWithId(objects[0], k) then 0
    else
      assert exists o :: o in objects[1..] && IsSatelliteWithId(o, k);
      FirstSatelliteIndex(objects[1..], k) + 1
  }

  /** `create_satellite(context, name, satellite_id)`: a satellite carrying
      the next id of the context and the given business fields. The context's
      object list is left as it is. */
  method CreateSatellite(context: Simulation?, satelliteName: string, satelliteId: int)
    returns (r: Result<TopologyObject>)
    modifies context
    ensures context == null ==> r == Err(SimulationContext)
    ensures context != null ==>
              && r.Ok? && fresh(r.value) && r.value.kind == SatelliteClass
              && r.value.id == Some(old(context.availableIdIndex))
              && r.value.satelliteId == Some(satelliteId)
              && r.value.satelliteName == Some(satelliteName)
              && !r.value.HasPosition()
              && context.availableIdIndex == old(context.availableIdIndex) + 1
              && context.topologyObjects == old(context.topologyObjects)
              && context.connectionLinks == old(context.connectionLinks)
  {
    if context == null {
      return Err(SimulationContext);
    }
    var satellite := new TopologyObject(SatelliteClass);
    satellite.satelliteId := Some(satelliteId);
    satellite.satelliteName := Some(satelliteName);
    var id := context.RequestAnId();
    satellite.id := Some(id);
    r := Ok(satellite);
  }

  /** `create_ground_station(context, ground_station_id, city)`. */
  method CreateGroundStation(context: Simulation?, groundStationId: int, city: string)
    returns (r: Result<TopologyObject>)
    modifies context
    ensures context == null ==> r == Err(SimulationContext)
    ensures context != null ==>
              && r.Ok? && fresh(r.value) && r.value.kind == GroundStationClass
              && r.value.id == Some(old(context.availableIdIndex))
              && r.value.groundStationId == Some(groundStationId)
              && r.value.city == Some(city)
              && !r.value.HasPosition()
              && context.availableIdIndex == old(context.availableIdIndex) + 1
              && context.topologyObjects == old(context.topologyObjects)
              && context.connectionLinks == old(context.connectionLinks)
  {
    if context == null {
      return Err(SimulationContext);
    }
    var station := new TopologyObject(GroundStationClass);
    var id := context.RequestAnId();
    station.id := Some(id);
    station.city := Some(city);
    station.groundStationId := Some(groundStationId);
    r := Ok(station);
  }

  /** `create_user_terminal(context, user_id, username)`. */
  method CreateUserTerminal(context: Simulation?, userId: int, userName: string)
    returns (r: Result<TopologyObject>)
    modifies context
    ensures context == null ==> r == Err(SimulationContext)
    ensures context != null ==>
              && r.Ok? && fresh(r.value) && r.value.kind == UserTerminalClass
              && r.value.id == Some(old(context.availableIdIndex))
              && r.value.userId == Some(userId)
              && r.value.userName == Some(userName)
              && !r.value.HasPosition()
              && context.availableIdIndex == old(context.availableIdIndex) + 1
              && context.topologyObjects == old(context.topologyObjects)
              && context.connectionLinks == old(context.connectionLinks)
  {
    if context == null {
      return Err(SimulationContext);
    }
    var terminal := new TopologyObject(UserTerminalClass);
    var id := context.RequestAnId();
    terminal.id := Some(id);
    terminal.userName := Some(userName);
    terminal.userId := Some(userId);
    r := Ok(terminal);
  }

  /** A fresh simulation hands out 0 and then 1. */
  method FirstTwoIds() returns (first: int, second: int)
    ensures first == 0 && second == 1
  {
    var simulation := new Simulation();
    first := simulation.RequestAnId();
    second := simulation.RequestAnId();
  }

  /** Objects drawn from one simulation carry distinct ids, in the order they
      were created. */
  method IdsOfCreatedObjects(simulation: Simulation, name: string)
    returns (a: TopologyObject, b: TopologyObject, c: TopologyObject)
    modifies simulation
    ensures a.id.Some? && b.id.Some? && c.id.Some?
    ensures a.id.value < b.id.value < c.id.value
    ensures simulation.availableIdIndex == c.id.value + 1
  {
    var ra := CreateSatellite(simulation, name, 1);
    var rb := CreateGroundStation(simulation, 2, name);
    var rc := CreateUserTerminal(simulation, 3, name);
    a, b, c := ra.value, rb.value, rc.value;
  }

  /** The filter over three objects, one step per object. */
  lemma OfClassOfThree(x: TopologyObject, y: TopologyObject, z: TopologyObject, cls: EntityClass)
    ensures OfClass([x, y, z], cls)
         == (if IsInstance(x.kind, cls) then [x] else [])
          + (if IsInstance(y.kind, cls) then [y] else [])
          + (if IsInstance(z.kind, cls) then [z] else [])
  {
    assert [x, y, z][1..] == [y, z] && [y, z][1..] == [z] && [z][1..] == [];
    assert OfClass([z], cls) == (if IsInstance(z.kind, cls) then [z] else []) + OfClass([], cls);
    assert OfClass([y, z], cls) == (if IsInstance(y.kind, cls) then [y] else []) + OfClass([z], cls);
    assert OfClass([x, y, z], cls) == (if IsInstance(x.kind, cls) then [x] else []) + OfClass([y, z], cls);
  }

  /** One satellite, one ground station and one user terminal: each leaf
      class matches one of them, TopologyObject matches all three. */
  lemma OneObjectOfEachLeafClass(s: TopologyObject, g: TopologyObject, u: TopologyObject, cls: EntityClass)
    requires s.kind == SatelliteClass && g.kind == GroundStationClass && u.kind == UserTerminalClass
    ensures OfClass([s, g, u], cls) == match cls
      case SatelliteClass => [s]
      case GroundStationClass => [g]
      case UserTerminalClass => [u]
      case OrbitalObjectClass => [s]
      case GroundObjectClass => [g, u]
      case TopologyObjectClass => [s, g, u]
  {
    OfClassOfThree(s, g, u, cls);
  }

  /** Two satellites with satellite ids 1 and 2 are stored: looking up 1
      finds the first, looking up 3 raises TopologyObjectNotFoundError. */
  method LookUpStoredSatellites() returns (found: Result<TopologyObject>, missing: Result<TopologyObject>, first: TopologyObject)
    ensures found == Ok(first) && missing == Err(TopologyObjectNotFound)
  {
    var simulation := new Simulation();
    first := new TopologyObject(SatelliteClass);
    first.satelliteId := Some(1);
    var second := new TopologyObject(SatelliteClass);
    second.satelliteId := Some(2);
    simulation.topologyObjects := [first, second];
    found := simulation.GetSatellite(1);
    missing := simulation.GetSatellite(3);
  }

  /** Two satellites from the factories, then a bidirectional connection:
      ids 0 and 1, one stored link, connected last from B to A. */
  method ConnectTwoNewSatellites()
    returns (a: TopologyObject, b: TopologyObject, link: Link, storedLinks: nat)
    ensures a.id == Some(0) && b.id == Some(1)
    ensures link.source == b && link.destination == a
    ensures storedLinks == 1
  {
    var simulation := new Simulation();
    var ra := CreateSatellite(simulation, "A", 10);
    var rb := CreateSatellite(simulation, "B", 20);
    a, b := ra.value, rb.value;
    var rl := simulation.CreateBiDirectionalConnection(a, b);
    link := rl.value;
    storedLinks := |simulation.connectionLinks|;
  }
}
