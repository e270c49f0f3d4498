/** Links between topology objects and the rule each kind of link applies in
    `connect`. A subclass first checks the classes of the two endpoints and
    raises its own error when they do not fit; only then does it reach the
    base `Link.connect`, which refuses one and the same object at both ends. */
module Links {
  import opened Wrappers
  import opened Exceptions
  import opened Entities

  /** The class a link was instantiated from. */
  datatype LinkVariant =
    | BaseLink
    | InterSatelliteLink
    | GroundStationLink
    | UserTerminalLink

  /** One endpoint is an instance of `a` and the other of `b`, in either order. */
  predicate EitherOrder(s: EntityClass, d: EntityClass, a: EntityClass, b: EntityClass)
  {
    (IsInstance(s, a) && IsInstance(d, b)) || (IsInstance(s, b) && IsInstance(d, a))
  }

  /** The class check a variant performs before the base rule. */
  predicate KindsAccepted(v: LinkVariant, s: EntityClass, d: EntityClass)
  {
    match v
    case BaseLink => true
    case InterSatelliteLink => IsInstance(s, SatelliteClass) && IsInstance(d, SatelliteClass)
    case GroundStationLink => EitherOrder(s, d, GroundStationClass, SatelliteClass)
    case UserTerminalLink => EitherOrder(s, d, UserTerminalClass, SatelliteClass)
  }

  /** The error a variant raises when its class check fails. */
  function KindsRejected(v: LinkVariant): Error
    requires v != BaseLink
  {
    match v
    case InterSatelliteLink => InterSatelliteConnection
    case GroundStationLink => GroundStationConnection
    case UserTerminalLink => UserTerminalConnection
  }

  /** The error `connect(s, d)` raises on a link of variant `v`, or `None`
      when it stores the endpoints: the class check comes first, then the
      identity check of the base class. */
  function ConnectError(v: LinkVariant, s: TopologyObject, d: TopologyObject): Option<Error>
  {
    if !KindsAccepted(v, s.kind, d.kind) then Some(KindsRejected(v))
    else if s == d then Some(ConnectionBetweenSameSatelliteForbidden)
    else None
  }

  /** The base link accepts any two distinct objects and refuses one object
      at both ends. */
  lemma BaseConnectRule(s: TopologyObject, d: TopologyObject)
    ensures ConnectError(BaseLink, s, d)
         == if s == d then Some(ConnectionBetweenSameSatelliteForbidden) else None
  {
  }

  /** An inter-satellite link accepts exactly two distinct satellites. */
  lemma InterSatelliteConnectRule(s: TopologyObject, d: TopologyObject)
    ensures ConnectError(InterSatelliteLink, s, d).None?
        <==> s.kind == SatelliteClass && d.kind == SatelliteClass && s != d
    ensures !(s.kind == SatelliteClass && d.kind == SatelliteClass)
        ==> ConnectError(InterSatelliteLink, s, d) == Some(InterSatelliteConnection)
    ensures s.kind == SatelliteClass && d.kind == SatelliteClass && s == d
        ==> ConnectError(InterSatelliteLink, s, d) == Some(ConnectionBetweenSameSatelliteForbidden)
  {
  }

  /** The inter-satellite rule does not depend on the direction. */
  lemma InterSatelliteConnectSymmetric(s: TopologyObject, d: TopologyObject)
    ensures ConnectError(InterSatelliteLink, s, d) == ConnectError(InterSatelliteLink, d, s)
  {
  }

  /** A ground-station link accepts exactly a ground station and a satellite,
      in either order, and raises GroundStationConnectionError for every other
      pair; one object at both ends is such a pair. */
  lemma GroundStationConnectRule(s: TopologyObject, d: TopologyObject)
    ensures ConnectError(GroundStationLink, s, d)
         == if (s.kind == GroundStationClass && d.kind == SatelliteClass)
               || (s.kind == SatelliteClass && d.kind == GroundStationClass)
            then None else Some(GroundStationConnection)
  {
  }

  /** A user-terminal link accepts exactly a user terminal and a satellite, in
      either order, and raises UserTerminalConnectionError for every other
      pair. */
  lemma UserTerminalConnectRule(s: TopologyObject, d: TopologyObject)
    ensures ConnectError(UserTerminalLink, s, d)
         == if (s.kind == UserTerminalClass && d.kind == SatelliteClass)
               || (s.kind == SatelliteClass && d.kind == UserTerminalClass)
            then None else Some(UserTerminalConnection)
  {
  }

  /** With one object at both ends the identity error is raised only where the
      class check lets the pair through: by the base link, and by the
      inter-satellite link for a satellite. Every other variant raises its own
      class error instead. */
  lemma SameObjectAtBothEnds(v: LinkVariant, x: TopologyObject)
    ensures ConnectError(v, x, x) == Some(ConnectionBetweenSameSatelliteForbidden)
        <==> v == BaseLink || (v == InterSatelliteLink && x.kind == SatelliteClass)
    ensures ConnectError(v, x, x).Some?
  {
  }

  /** Every error `connect` raises is a TopologyConnectionError. */
  lemma ConnectErrorsAreTopologyConnectionErrors(v: LinkVariant, s: TopologyObject, d: TopologyObject)
    ensures ConnectError(v, s, d).Some?
        ==> Catches(TopologyConnectionError, ConnectError(v, s, d).value)
  {
  }

  /** A Link, InterSatelliteLink, GroundStationLink or UserTerminalLink. */
  class Link {
    const variant: LinkVariant
    var source: TopologyObject?
    var destination: TopologyObject?

    /** Unconnected, or connected to a pair its variant accepts. */
    ghost predicate Valid()
      reads this
    {
      && (source == null <==> destination == null)
      && (source != null ==> ConnectError(variant, source, destination).None?)
    }

    /** A fresh link has neither endpoint. */
    constructor (variant: LinkVariant)
      ensures this.variant == variant && source == null && destination == null
      ensures Valid()
    {
      this.variant := variant;
      source, destination := null, null;
    }

    /** `connect(source, destination)`: stores both endpoints as given,
        replacing any earlier connection, or raises and changes nothing. */
    method Connect(s: TopologyObject, d: TopologyObject) returns (r: Result<()>)
      modifies this`source, this`destination
      ensures ConnectError(variant, s, d).None? ==> r == Ok(()) && source == s && destination == d
      ensures ConnectError(variant, s, d).Some? ==>
                && r == Err(ConnectError(variant, s, d).value)
                && source == old(source) && destination == old(destination)
      ensures old(Valid()) ==> Valid()
    {
      match variant {
        case BaseLink =>
        case InterSatelliteLink =>
          var bothSatellites := IsInstance(s.kind, SatelliteClass) && IsInstance(d.kind, SatelliteClass);
          if !bothSatellites {
            return Err(InterSatelliteConnection);
          }
        case GroundStationLink =>
          var stationToSatellite := IsInstance(s.kind, GroundStationClass) && IsInstance(d.kind, SatelliteClass);
          var satelliteToStation := IsInstance(s.kind, SatelliteClass) && IsInstance(d.kind, GroundStationClass);
          if !stationToSatellite && !satelliteToStation {
            return Err(GroundStationConnection);
          }
        case UserTerminalLink =>
          var terminalToSatellite := IsInstance(s.kind, UserTerminalClass) && IsInstance(d.kind, SatelliteClass);
          var satelliteToTerminal := IsInstance(s.kind, SatelliteClass) && IsInstance(d.kind, UserTerminalClass);
          if !terminalToSatellite && !satelliteToTerminal {
            return Err(UserTerminalConnection);
          }
      }
      r := ConnectEndpoints(s, d);
    }

    /** The base class's `connect`, which the subclasses reach through
        `super().connect`: refuses one object at both ends, otherwise stores. */
    method ConnectEndpoints(s: TopologyObject, d: TopologyObject) returns (r: Result<()>)
      modifies this`source, this`destination
      ensures s != d ==> r == Ok(()) && source == s && destination == d
      ensures s == d ==>
                && r == Err(ConnectionBetweenSameSatelliteForbidden)
                && source == old(source) && destination == old(destination)
    {
      if s == d {
        return Err(ConnectionBetweenSameSatelliteForbidden);
      }
      source := s;
      destination := d;
      r := Ok(());
    }
  }

  /** A fresh link of any variant, asked to connect one object to itself,
      raises and stays unconnected: the base link, and the inter-satellite
      link given a satellite, raise the same-endpoint error, every other
      variant its own class error. */
  method ConnectSameObjectOnFreshLink(v: LinkVariant, x: TopologyObject)
    returns (r: Result<()>, source: TopologyObject?, destination: TopologyObject?)
    ensures v == BaseLink ==> r == Err(ConnectionBetweenSameSatelliteForbidden)
    ensures r == Err(if v == BaseLink || (v == InterSatelliteLink && x.kind == SatelliteClass)
                     then ConnectionBetweenSameSatelliteForbidden else KindsRejected(v))
    ensures source == null && destination == null
  {
    var link := new Link(v);
    SameObjectAtBothEnds(v, x);
    r := link.Connect(x, x);
    source, destination := link.source, link.destination;
  }

  /** Connecting a ground station and a satellite succeeds in both directions
      on the same link, and the second call replaces the first. */
  method ReconnectGroundStationLink(gs: TopologyObject, sat: TopologyObject)
    returns (first: Result<()>, second: Result<()>, source: TopologyObject?, destination: TopologyObject?)
    requires gs.kind == GroundStationClass && sat.kind == SatelliteClass
    ensures first == Ok(()) && second == Ok(())
    ensures source == sat && destination == gs
  {
    var link := new Link(GroundStationLink);
    GroundStationConnectRule(gs, sat);
    GroundStationConnectRule(sat, gs);
    first := link.Connect(gs, sat);
    second := link.Connect(sat, gs);
    source, destination := link.source, link.destination;
  }
}
