/** The entities of the topology: the spatial point every element embeds and
    the class tree TopologyObject -> OrbitalObject -> Satellite,
    TopologyObject -> GroundObject -> GroundStation | UserTerminal.

    Python objects are references whose attributes spring into existence when
    first assigned; an entity is therefore one Dafny class whose `kind` is the
    concrete Python class it was instantiated from and whose attributes are
    `Option`s, `None` while never assigned. */
module Entities {
  import opened Wrappers

  /** The entity classes of the model, abstract ones included: the tests
      instantiate TopologyObject itself. */
  datatype EntityClass =
    | TopologyObjectClass
    | OrbitalObjectClass
    | SatelliteClass
    | GroundObjectClass
    | GroundStationClass
    | UserTerminalClass

  /** The base class named in each class declaration (SpatialPoint, the root,
      carries no behaviour of its own that `isinstance` is asked about). */
  function BaseOf(c: EntityClass): Option<EntityClass>
  {
    match c
    case TopologyObjectClass => None
    case OrbitalObjectClass => Some(TopologyObjectClass)
    case SatelliteClass => Some(OrbitalObjectClass)
    case GroundObjectClass => Some(TopologyObjectClass)
    case GroundStationClass => Some(GroundObjectClass)
    case UserTerminalClass => Some(GroundObjectClass)
  }

  /** The method resolution order of a class, most specific first. */
  function Mro(c: EntityClass): (mro: seq<EntityClass>)
    ensures |mro| > 0 && mro[0] == c && mro[|mro| - 1] == TopologyObjectClass
  {
    match c
    case TopologyObjectClass => [TopologyObjectClass]
    case OrbitalObjectClass => [OrbitalObjectClass, TopologyObjectClass]
    case SatelliteClass => [SatelliteClass, OrbitalObjectClass, TopologyObjectClass]
    case GroundObjectClass => [GroundObjectClass, TopologyObjectClass]
    case GroundStationClass => [GroundStationClass, GroundObjectClass, TopologyObjectClass]
    case UserTerminalClass => [UserTerminalClass, GroundObjectClass, TopologyObjectClass]
  }

  /** The resolution order is the class followed by its base's order. */
  lemma MroFollowsBases(c: EntityClass)
    ensures Mro(c) == [c] + (if BaseOf(c).None? then [] else Mro(BaseOf(c).value))
  {
  }

  /** `isinstance(x, c)` for an object `x` instantiated from class `k`:
      `c` is `k` or one of its ancestors. */
  predicate IsInstance(k: EntityClass, c: EntityClass)
  {
    c in Mro(k)
  }

  /** Subclassing is reflexive and transitive. */
  lemma IsInstanceTransitive(a: EntityClass, b: EntityClass, c: EntityClass)
    requires IsInstance(a, b) && IsInstance(b, c)
    ensures IsInstance(a, c)
  {
  }

  /** Every object is a TopologyObject. */
  lemma EveryObjectIsATopologyObject(k: EntityClass)
    ensures IsInstance(k, TopologyObjectClass)
  {
  }

  /** The three concrete leaf classes have no subclasses: an instance of one
      was instantiated from exactly that class. */
  lemma LeafClassesAreExact(k: EntityClass)
    ensures IsInstance(k, SatelliteClass) <==> k == SatelliteClass
    ensures IsInstance(k, GroundStationClass) <==> k == GroundStationClass
    ensures IsInstance(k, UserTerminalClass) <==> k == UserTerminalClass
  {
  }

  /** No object is both orbital and on the ground, nor both a ground station and
      a user terminal. */
  lemma BranchesAreDisjoint(k: EntityClass)
    ensures !(IsInstance(k, OrbitalObjectClass) && IsInstance(k, GroundObjectClass))
    ensures !(IsInstance(k, GroundStationClass) && IsInstance(k, UserTerminalClass))
  {
  }

  /** The `type` class attribute, for the classes whose body assigns one. */
  function DeclaredTag(c: EntityClass): Option<string>
  {
    match c
    case TopologyObjectClass => Some("TypologyObject")
    case SatelliteClass => Some("Satellite")
    case GroundStationClass => Some("GroundStation")
    case UserTerminalClass => Some("UserTerminal")
    case OrbitalObjectClass => None
    case GroundObjectClass => None
  }

  /** Attribute lookup along a resolution order: the first declared tag. */
  function TagAlong(mro: seq<EntityClass>): (tag: Option<string>)
    ensures TopologyObjectClass in mro ==> tag.Some?
    ensures tag.Some? ==> exists i :: 0 <= i < |mro| && DeclaredTag(mro[i]) == tag
  {
    if mro == [] then None
    else if DeclaredTag(mro[0]).Some? then DeclaredTag(mro[0])
    else
      var rest := TagAlong(mro[1..]);
      assert rest.Some? ==> exists i :: 1 <= i < |mro| && DeclaredTag(mro[i]) == rest;
      rest
  }

  /** `get_type()`: the `type` attribute an instance of class `c` resolves to. */
  function TypeTag(c: EntityClass): string
  {
    TagAlong(Mro(c)).value
  }

  /** The tag of every class: the three leaves name themselves, and every other
      class inherits the root's tag, spelled "TypologyObject". */
  lemma TypeTagValues(c: EntityClass)
    ensures TypeTag(c) == match c
      case SatelliteClass => "Satellite"
      case GroundStationClass => "GroundStation"
      case UserTerminalClass => "UserTerminal"
      case _ => "TypologyObject"
  {
  }

  /** A leaf tag is returned for instances of that leaf class and of no other
      class. */
  lemma TypeTagIdentifiesLeaves(k: EntityClass)
    ensures TypeTag(k) == "Satellite" <==> IsInstance(k, SatelliteClass)
    ensures TypeTag(k) == "GroundStation" <==> IsInstance(k, GroundStationClass)
    ensures TypeTag(k) == "UserTerminal" <==> IsInstance(k, UserTerminalClass)
  {
  }

  /** A floating point coordinate, kept as its IEEE 754 binary64 bit pattern;
      the model does no arithmetic on coordinates. */
  datatype Coordinate = Float64(bits: bv64)

  /** What `get_position()` returns. */
  datatype Position = Position(longitude: Coordinate, latitude: Coordinate, altitude: Coordinate)

  /** The keyword arguments of `set_position`; an absent keyword is `None`. */
  datatype PositionUpdate = PositionUpdate(
    longitude: Option<Coordinate>, latitude: Option<Coordinate>, altitude: Option<Coordinate>)

  /** `kwargs.get(name, current)` for one coordinate. */
  function Pick(given: Option<Coordinate>, current: Coordinate): Coordinate
  {
    if given.Some? then given.value else current
  }

  /** The position after `set_position`: each given coordinate replaces the
      current one, each absent one keeps its value. */
  function Merge(p: Position, u: PositionUpdate): Position
  {
    Position(Pick(u.longitude, p.longitude), Pick(u.latitude, p.latitude), Pick(u.altitude, p.altitude))
  }

  /** An update with no keyword changes nothing. */
  lemma MergeNothing(p: Position)
    ensures Merge(p, PositionUpdate(None, None, None)) == p
  {
  }

  /** An update naming all three coordinates is a full replacement. */
  lemma MergeEverything(p: Position, lon: Coordinate, lat: Coordinate, alt: Coordinate)
    ensures Merge(p, PositionUpdate(Some(lon), Some(lat), Some(alt))) == Position(lon, lat, alt)
  {
  }

  /** Applying the same update twice is applying it once. */
  lemma MergeIdempotent(p: Position, u: PositionUpdate)
    ensures Merge(Merge(p, u), u) == Merge(p, u)
  {
  }

  /** A SpatialPoint / TopologyObject instance. The attributes `object_name`,
      `tle` and `orbital_object_id` are declared by the source but never
      assigned or read, and are not modelled. */
  class TopologyObject {
    /** The class the object was instantiated from. */
    const kind: EntityClass
    var id: Option<int>
    var longitude: Option<Coordinate>
    var latitude: Option<Coordinate>
    var altitude: Option<Coordinate>
    var satelliteName: Option<string>
    var satelliteId: Option<int>
    var groundStationId: Option<int>
    var city: Option<string>
    var userId: Option<int>
    var userName: Option<string>

    /** No attribute is assigned yet. */
    ghost predicate Unassigned()
      reads this
    {
      && id.None? && longitude.None? && latitude.None? && altitude.None?
      && satelliteName.None? && satelliteId.None? && groundStationId.None?
      && city.None? && userId.None? && userName.None?
    }

    /** `Satellite()`, `GroundStation()`, ...: construction assigns nothing. */
    constructor (kind: EntityClass)
      ensures this.kind == kind && Unassigned()
    {
      this.kind := kind;
      id, longitude, latitude, altitude := None, None, None, None;
      satelliteName, satelliteId, groundStationId := None, None, None;
      city, userId, userName := None, None, None;
    }

    /** `get_type()`. */
    function GetType(): (tag: string)
      ensures tag == "Satellite" <==> kind == SatelliteClass
      ensures tag == "GroundStation" <==> kind == GroundStationClass
      ensures tag == "UserTerminal" <==> kind == UserTerminalClass
    {
      TypeTag(kind)
    }

    /** All three coordinates are assigned. */
    predicate HasPosition()
      reads this
    {
      longitude.Some? && latitude.Some? && altitude.Some?
    }

    /** `get_position()`; `None` where Python would fail on an unassigned
        coordinate. */
    function GetPosition(): (p: Option<Position>)
      reads this
      ensures p.Some? <==> HasPosition()
      ensures p.Some? ==>
                Some(p.value.longitude) == longitude
                && Some(p.value.latitude) == latitude
                && Some(p.value.altitude) == altitude
    {
      if HasPosition() then Some(Position(longitude.value, latitude.value, altitude.value)) else None
    }

    /** `set_position(**kwargs)`; each current coordinate is read as the
        default just before it is written, so all three must be assigned
        already. */
    method SetPosition(u: PositionUpdate)
      requires HasPosition()
      modifies this`longitude, this`latitude, this`altitude
      ensures GetPosition() == Some(Merge(old(GetPosition()).value, u))
    {
      latitude := Some(Pick(u.latitude, latitude.value));
      longitude := Some(Pick(u.longitude, longitude.value));
      altitude := Some(Pick(u.altitude, altitude.value));
    }
  }
}
