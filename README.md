# Satellite-communication topology model in Dafny

This project models the core of `sat_com_model`, a small Python package that
describes a satellite-communication network topology. The package has:

- **entities**: satellites, ground stations and user terminals, each a
  spatial point;
- **typed links** between entities, whose `connect` checks which kinds of
  entity may sit at each end;
- **the simulation context**: it owns an id counter, a list of topology
  objects and a list of links, and has lookups over them;
- **three factory functions** that mint entities with ids drawn from the
  context;
- **the error taxonomy** raised by all of the above.

Files (one module each):

- `wrappers.dfy` (`Wrappers`): `Option`. It stands for a Python attribute
  that may not be assigned yet, and for an optional keyword argument.
- `exceptions.dfy` (`Exceptions`): the error kinds of
  `src/sat_com_model/exception.py`. Also their class tree (`ErrorClass`,
  `ErrorMro`), the predicate `Catches` (which `except` clause catches which
  error), and the `Result` type that operations return instead of raising.
- `entities.dfy` (`Entities`): the class tree of `model.py`. Each class is a
  constructor of `EntityClass`. Each class's method resolution order gives
  `isinstance` (`IsInstance`) and the `type` tag lookup (`TypeTag`). An
  entity is the class `TopologyObject`. Its `const kind` is the Python class
  it was created from. Its attributes are `Option` fields, `None` until
  assigned. No class defines `__eq__`, so two entities are "the same" only
  when they are the same reference. The model has no id-based equality,
  and neither does the source.
- `links.dfy` (`Links`): the four link classes, as one `Link` class with a
  `const variant`. `ConnectError` is the specification of `connect`: it
  checks the variant's class rule first and then the base class's identity
  check. `Link.Connect` follows the source's control flow and is proved
  against `ConnectError`. On failure it leaves the endpoints exactly as they
  were.
- `registry.dfy` (`Registry`): the `Simulation` class. Also the two
  order-preserving filters behind `get_object_from_type` and
  `get_satellites`, the three factories, and the scenarios from the
  repository's tests.

Points about the code that the model keeps, where a reader might expect
otherwise:

- **Check order.** `connect` checks the endpoint classes before it reaches
  the base class's same-endpoint check (`src/sat_com_model/model.py:99-109`,
  `114-130`, `135-151`). So `GroundStationLink.connect(gs, gs)` raises
  `GroundStationConnectionError` (`Links.SameObjectAtBothEnds`).
- **Equality.** No class defines `__eq__`, so `source == destination` at
  `src/sat_com_model/model.py:89` compares object identity, not kind and id.
- **Typed lookup.** `get_object_from_type` filters with `isinstance`
  (`src/sat_com_model/model.py:171-175`), so it also matches subclasses. For
  example, `TopologyObject` matches all three leaf kinds.
- **Bidirectional connection.** `create_bi_directional_connection`
  (`src/sat_com_model/model.py:183-189`) raises
  `ConnectionBetweenSameSatelliteForbiddenError` when both arguments are
  one satellite, and `InterSatelliteConnectionError` when either argument is
  not a satellite.
- **Failed connect.** A `connect` that raises assigns neither endpoint, so
  the link keeps whatever pair an earlier successful `connect` stored.
- **Lookup by satellite id.** The code has no raising `get_satellite`. It has
  only the lazy filter `get_satellites`. `Simulation.GetSatellite` is the
  first-match lookup that `tests/test_simulation.py:54-63` expects, and is
  derived from that test.
- **Typed lookup test.** `tests/test_simulation.py:26-52` calls
  `get_objects_from_type`, which the code does not define (it defines
  `get_object_from_type` at `src/sat_com_model/model.py:171`), and takes
  `len()` of the `filter` object it would return. As written the test fails.
  `Registry.OneObjectOfEachLeafClass` states the test's intent about
  `OfClass`.

## Model

| member | source | states |
|---|---|---|
| `Exceptions.CaughtAsTopologyConnectionError` | src/sat_com_model/exception.py:1-18 | `except TopologyConnectionError` catches exactly the four connection errors |
| `Exceptions.CaughtAsException` | src/sat_com_model/exception.py:1-26 | every error of the taxonomy is an Exception |
| `Exceptions.ConcreteClassesAreDisjoint` | src/sat_com_model/exception.py:5-26 | an `except` naming one concrete error class catches that class only: the four connection errors are siblings and no concrete class derives from another |
| `Exceptions.RegistryErrorsAreNotConnectionErrors` | src/sat_com_model/exception.py:21-26 | SimulationContextError and TopologyObjectNotFoundError are not TopologyConnectionErrors |
| `Entities.Mro` | src/sat_com_model/model.py:33-76 | every class's resolution order starts with the class itself and ends with TopologyObject |
| `Entities.MroFollowsBases` | src/sat_com_model/model.py:33-76 | a class's resolution order is the class followed by its declared base's order |
| `Entities.IsInstanceTransitive` | src/sat_com_model/model.py:33-76 | `isinstance` through the class tree is transitive |
| `Entities.EveryObjectIsATopologyObject` | src/sat_com_model/model.py:33-76 | every entity is an instance of TopologyObject |
| `Entities.LeafClassesAreExact` | src/sat_com_model/model.py:55-76 | Satellite, GroundStation and UserTerminal have no subclasses: an instance of one was created from exactly that class |
| `Entities.BranchesAreDisjoint` | src/sat_com_model/model.py:46-76 | no entity is both orbital and on the ground, nor both a ground station and a user terminal |
| `Entities.TagAlong` | src/sat_com_model/model.py:40-76 | attribute lookup along a resolution order that contains TopologyObject always finds a `type` tag, and the tag found is one declared by a class on that order |
| `Entities.TypeTagValues` | src/sat_com_model/model.py:38-76 | `get_type` gives "Satellite", "GroundStation" and "UserTerminal" for the leaves, and the root's misspelt "TypologyObject" for TopologyObject, OrbitalObject and GroundObject |
| `Entities.TypeTagIdentifiesLeaves` | src/sat_com_model/model.py:40-76 | a leaf's tag is returned for instances of that leaf and of no other class |
| `Entities.TopologyObject.GetType` | src/sat_com_model/model.py:42-43 | an object's tag is "Satellite" / "GroundStation" / "UserTerminal" exactly when it was created from that class |
| `Entities.TopologyObject.constructor` | src/sat_com_model/model.py:33-76 | a freshly created entity has no attribute assigned: no id, no position, no business field |
| `Entities.TopologyObject.GetPosition` | src/sat_com_model/model.py:19-20 | the position is the triple of the three coordinates, available exactly when all three are assigned |
| `Entities.TopologyObject.SetPosition` | src/sat_com_model/model.py:22-30 | after `set_position` the position is the old one merged with the given keywords; nothing else changes |
| `Entities.MergeNothing` | src/sat_com_model/model.py:22-30 | `set_position()` with no keyword keeps the position |
| `Entities.MergeEverything` | src/sat_com_model/model.py:22-30 | `set_position` with all three keywords replaces the position entirely |
| `Entities.MergeIdempotent` | src/sat_com_model/model.py:22-30 | repeating the same `set_position` call changes nothing more |
| `Links.BaseConnectRule` | src/sat_com_model/model.py:88-94 | the base Link accepts any two distinct objects and raises ConnectionBetweenSameSatelliteForbiddenError for one object at both ends |
| `Links.InterSatelliteConnectRule` | src/sat_com_model/model.py:97-109 | an InterSatelliteLink accepts exactly two distinct satellites; a non-satellite at either end raises InterSatelliteConnectionError even when both ends are one object; one satellite at both ends raises the same-endpoint error |
| `Links.InterSatelliteConnectSymmetric` | src/sat_com_model/model.py:98-109 | the inter-satellite outcome does not depend on the direction |
| `Links.GroundStationConnectRule` | src/sat_com_model/model.py:112-130 | a GroundStationLink accepts exactly (GroundStation, Satellite) and (Satellite, GroundStation) and raises GroundStationConnectionError for every other pair, one object at both ends included |
| `Links.UserTerminalConnectRule` | src/sat_com_model/model.py:133-151 | a UserTerminalLink accepts exactly (UserTerminal, Satellite) and (Satellite, UserTerminal) and raises UserTerminalConnectionError for every other pair |
| `Links.SameObjectAtBothEnds` | src/sat_com_model/model.py:88-151 | one object at both ends is always rejected; the same-endpoint error is raised only by the base link and by the inter-satellite link for a satellite, because the class check runs first |
| `Links.ConnectErrorsAreTopologyConnectionErrors` | src/sat_com_model/model.py:88-151 | every error `connect` raises is caught by `except TopologyConnectionError` |
| `Links.Link.constructor` | src/sat_com_model/model.py:79-86 | a new link of any variant has neither source nor destination |
| `Links.Link.Connect` | src/sat_com_model/model.py:88-151 | `connect` stores both endpoints verbatim, overwriting any earlier connection, exactly when the variant's rule accepts them; otherwise it returns that rule's error and leaves both endpoints as they were; a link connected only through `connect` always holds a pair its rule accepts |
| `Links.Link.ConnectEndpoints` | src/sat_com_model/model.py:88-94 | the base `connect` refuses one object at both ends without touching the link, and otherwise stores the pair |
| `Links.ConnectSameObjectOnFreshLink` | tests/test_model.py:72-80 | connecting one object to itself on a fresh link raises and leaves both endpoints unset; the base link raises ConnectionBetweenSameSatelliteForbiddenError, as does the inter-satellite link given a satellite, and every other variant raises its own class error |
| `Links.ReconnectGroundStationLink` | tests/test_model.py:82-86 | a ground-station link connects a ground station to a satellite and then, on the same link, the reverse; the second call replaces the first |
| `Registry.OfClass` | src/sat_com_model/model.py:171-175 | the type filter yields only stored instances of the class, and yields every one of them |
| `Registry.OfClassAppend` | src/sat_com_model/model.py:171-175 | filtering a concatenation is concatenating the filtered parts, so storage order is kept |
| `Registry.OfClassFirst` | src/sat_com_model/model.py:171-175 | the first object the type filter yields is the first stored instance |
| `Registry.OfClassCount` | src/sat_com_model/model.py:171-175 | each instance is yielded as many times as it is stored, every other object never |
| `Registry.OfTopologyObjectClassIsAll` | src/sat_com_model/model.py:171-175 | filtering by TopologyObject yields the whole list unchanged |
| `Registry.WithSatelliteId` | src/sat_com_model/model.py:177-181 | the satellite-id filter yields exactly the given objects whose `satellite_id` equals the key |
| `Registry.WithSatelliteIdAppend` | src/sat_com_model/model.py:177-181 | filtering a concatenation by `satellite_id` is concatenating the filtered parts, so storage order is kept |
| `Registry.WithSatelliteIdCount` | src/sat_com_model/model.py:177-181 | each object with the key is yielded as many times as it is given, every other object never |
| `Registry.SatelliteCount` | src/sat_com_model/model.py:177-181 | the two filters together yield each stored satellite with the key as many times as it is stored, every other object never |
| `Registry.SatellitesFirst` | src/sat_com_model/model.py:177-181 | the first object the two filters yield together is the first stored satellite with that `satellite_id` |
| `Registry.SatelliteLookup` | src/sat_com_model/model.py:177-181 | the two filters together yield exactly the stored satellites with the key, the first-stored one first |
| `Registry.Simulation.constructor` | src/sat_com_model/model.py:154-163 | a new simulation has counter 0 and no objects or links |
| `Registry.Simulation.RequestAnId` | src/sat_com_model/model.py:165-169 | returns the counter's value before the call and raises the counter by exactly one, changing nothing else |
| `Registry.Simulation.GetObjectFromType` | src/sat_com_model/model.py:171-175 | yields exactly the stored instances of the class or a subclass, each as often as it is stored |
| `Registry.Simulation.GetSatellites` | src/sat_com_model/model.py:177-181 | yields exactly the stored satellites whose `satellite_id` is the key, each as often as it is stored, and starts with the first-stored one when there is one |
| `Registry.Simulation.GetSatellite` | tests/test_simulation.py:54-63 | the first stored satellite with the key, or TopologyObjectNotFoundError exactly when no stored satellite has it |
| `Registry.Simulation.CreateBiDirectionalConnection` | src/sat_com_model/model.py:183-189 | succeeds exactly for two distinct satellites: then one new inter-satellite link, last connected from `b` to `a`, is appended and returned; otherwise the first `connect`'s error is raised and the link list is unchanged |
| `Registry.CreateSatellite` | src/sat_com_model/model.py:192-212 | fails with SimulationContextError without a context; otherwise a new satellite with the given name and satellite id, whose id is the counter's old value; the counter advances by one and the stored objects and links are unchanged |
| `Registry.CreateGroundStation` | src/sat_com_model/model.py:215-233 | as for satellites, with the ground station id and city |
| `Registry.CreateUserTerminal` | src/sat_com_model/model.py:236-254 | as for satellites, with the user id and user name |
| `Registry.FirstTwoIds` | tests/test_simulation.py:20-24 | a fresh simulation hands out 0 and then 1 |
| `Registry.IdsOfCreatedObjects` | src/sat_com_model/model.py:192-254 | objects created one after another from one context carry strictly increasing ids, and the counter ends one past the last |
| `Registry.OneObjectOfEachLeafClass` | tests/test_simulation.py:26-52 | over one satellite, one ground station and one user terminal, each leaf class matches exactly its one object and TopologyObject matches all three, in storage order |
| `Registry.LookUpStoredSatellites` | tests/test_simulation.py:54-63 | with satellites keyed 1 and 2 stored, the lookup of 1 finds the first and the lookup of 3 fails with TopologyObjectNotFoundError |
| `Registry.ConnectTwoNewSatellites` | src/sat_com_model/model.py:183-212 | two factory-made satellites get ids 0 and 1, and their bidirectional connection stores one link whose source is the second and destination the first |

## Left out

- Coordinates are IEEE 754 bit patterns, and the model does no arithmetic on them.
- `Entities.Mro` stops at TopologyObject. Python's order continues with SpatialPoint and `object`. No `isinstance` check in the core names either class, and neither defines `type`, so nothing modelled depends on them.
- `Entities.TopologyObject.SetPosition` requires all three coordinates to be assigned already. The source reads each current value as the default before writing, so with an unassigned coordinate it fails part-way with an AttributeError. That failure is not modelled.
- `Entities.TopologyObject.GetPosition` returns `None` where the source raises AttributeError on an unassigned coordinate. AttributeError is not part of the error taxonomy.
- `Registry.Simulation.GetSatellites` and `Registry.Simulation.GetSatellite` require every stored satellite to have its `satellite_id` assigned: the source's filter raises AttributeError on one that does not. The source's filters are lazy, so that error, like every element, appears only during iteration. The model computes the whole sequence at once.
- `Links.Link.Connect` takes non-null endpoints, so the source's behaviour on `None` is not modelled. There, the base `connect(None, None)` raises ConnectionBetweenSameSatelliteForbiddenError and the base `connect` with one `None` stores it. `GroundStationLink` and `UserTerminalLink` raise their own class error, because `isinstance(None, …)` is false. `InterSatelliteLink` fails with an AttributeError while formatting its error message.
- The message strings of the errors are not modelled; only the error kind is.
- The attributes `object_name`, `tle` and `orbital_object_id` are declared but never assigned or read, so they are not modelled.
- The movement and position provider, and the missing-movement-model error, do not appear in the modelled code and are not modelled.
- The source's attributes take any Python value. The model gives them the types the source annotates. The factory parameters `satellite_name` and `satellite_id` of `create_satellite`, and `user_id` and `username` of `create_user_terminal`, are untyped; the model gives them the types of the attributes they are stored in.
- The registry has no internal synchronisation. The model, like the source, is sequential.
- Packaging (`setup.py`) and the test helper `tests/model_helper.py` are not part of this model.
