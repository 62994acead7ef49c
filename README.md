# Road-map builder of the traffic-lights simulator

This project models the road-map builder of a multi-agent traffic-lights
simulator. The builder takes the road map the parser loaded (roads,
intersections with grid coordinates, the map's width and height). It then
runs three phases and returns the same road map on success or null on
failure:

1. **Connection build.** For every road it collects the candidate successors.
   These are the roads leaving its finish intersection, except the exact
   reverse road (a U-turn). It keeps those whose orientation is compatible
   under a fixed table of 8 ordered pairs. For each one it appends a
   connection to the road's finish intersection. The connection is owned by
   the road and carries a closed traffic light pointing at the successor. A
   road with no candidate, or with no compatible candidate, aborts the build.
2. **Connection check.** The build fails if any intersection has no inbound
   connection.
3. **Graphics.** The canvas is sized from the map dimensions. Grid
   coordinates are converted to layout pixels (`50 + 150·v`). Every
   intersection gets a square hit box. Every road owning a connection gets
   a box hit box, picked by its orientation and by whether it is one-way.

Files and modules:

- `roadmap.dfy` (`RoadMap`): the entities. `Coordinates` is a class, as its
  setters update it in place. Roads, intersections, connections and traffic
  lights are values that refer to each other by integer id (an arena).
- `roadmapinfo.dfy` (`Parser`): the `RoadMapInfo` container class with its
  maps, dimensions, constructor, getters and setters.
- `geometry.dfy` (`Geometry`): the grid-to-layout transform, the hit-box
  corner arithmetic and the canvas size, with lemmas about them.
- `connections.dfy` (`Connections`): the specification of the connection
  graph. `Candidates` gives the candidate successors, `LegalConnections` the
  connections a road gets, and `Run` folds the build over the roads in
  order. The lemmas give the exact compatibility table, the build's error
  cases, the contents of each inbound list, and when every intersection is
  reachable.
- `builder.dfy` (`RoadMapBuilder`): the builder's methods, written as loops
  over the `RoadMapInfo` object. Each is proved against the functions above.
- `scenarios.dfy` (`Scenarios`): small road maps for each outcome.

Modelling choices:

- The Java `HashMap` of roads is iterated in an order the builder does not
  choose. Every method that walks the roads takes that order as a parameter
  `order`, an enumeration of the map's keys. `possibleConnections` walks the
  same unchanged map, so it uses the same order. Every property of the result
  holds for any order. The loops over intersections pick each remaining key
  arbitrarily.
- The loops at `RoadMapBuilder.java:218` and `:275` iterate `getRoads()`,
  which returns the map itself. The model takes them to iterate the map's
  values.
- Roads name their endpoints by intersection id, and the intersections map is
  keyed by that id. Java compares `getIntersectionId()` of the two endpoint
  objects; the model compares the ids.
- The Java build throws a plain `Exception`, and `buildAdvancedInfo` turns it
  into `null`. The model names the failing road or intersection in a
  `BuildError` (`UnconnectableRoad`, `IncompatibleRoad`,
  `UnreachableIntersection`). `BuildAdvancedInfo` collapses these to `null`,
  as Java does.
- A failed build keeps the connections appended before the failure, because
  Java mutates the caller's objects in place. The contract of
  `BuildAdvancedInfo` states that partial state.
- `new BufferedImage(width, height, TYPE_INT_RGB)` refuses a canvas it
  cannot allocate. It rejects a non-positive width or height. It also
  rejects `width * height >= Integer.MAX_VALUE` pixels: the raster's sample
  model refuses that size, and a pixel count that wraps negative makes the
  `int[]` allocation fail first. Either way the exception is caught, so the
  graphics phase fails and `buildAdvancedInfo` returns null exactly when
  `CanvasFits(mapWidth, mapHeight)` is false. That holds when a side is
  not positive or the map has more than 95,443 grid positions
  (`CanvasFitsIff`): a 308 by 308 map is drawn and a 309 by 309 map is not.
- Java `int` arithmetic: every grid coordinate is bounded by
  `|v| <= 14,000,000` and both canvas sizes are required to be `int`s. Within
  these bounds no layout value overflows (`LayoutFitsJavaInt`).

## Model

| member | source | states |
|---|---|---|
| RoadMap.Coordinates.Unplaced | src/roadmap/Coordinates.java:8-10 | a default-constructed Coordinates is the "not placed" sentinel (-1, -1) |
| RoadMap.Coordinates.constructor | src/roadmap/Coordinates.java:12-15 | the new Coordinates holds exactly the given x and y |
| RoadMap.Coordinates.GetXCoord | src/roadmap/Coordinates.java:17-19 | returns the current x and changes nothing |
| RoadMap.Coordinates.SetXCoord | src/roadmap/Coordinates.java:21-23 | x becomes the argument and y is unchanged |
| RoadMap.Coordinates.GetYCoord | src/roadmap/Coordinates.java:25-27 | returns the current y and changes nothing |
| RoadMap.Coordinates.SetYCoord | src/roadmap/Coordinates.java:29-31 | y becomes the argument and x is unchanged |
| Parser.RoadMapInfo.constructor | src/roadmap/parser/RoadMapInfo.java:20-23 | a new road map has empty road and intersection maps and every int setting at Java's default 0 |
| Parser.RoadMapInfo.GetRoads | src/roadmap/parser/RoadMapInfo.java:25-27 | returns the roads map and changes nothing |
| Parser.RoadMapInfo.SetRoads | src/roadmap/parser/RoadMapInfo.java:29-31 | the roads map becomes the argument; intersections and dimensions are unchanged |
| Parser.RoadMapInfo.GetIntersections | src/roadmap/parser/RoadMapInfo.java:33-35 | returns the intersections map and changes nothing |
| Parser.RoadMapInfo.SetIntersections | src/roadmap/parser/RoadMapInfo.java:37-39 | the intersections map becomes the argument; roads and dimensions are unchanged |
| Parser.RoadMapInfo.GetMapWidth | src/roadmap/parser/RoadMapInfo.java:41-43 | returns the width and changes nothing |
| Parser.RoadMapInfo.SetMapWidth | src/roadmap/parser/RoadMapInfo.java:45-47 | only the width changes, to the argument |
| Parser.RoadMapInfo.GetMapHeight | src/roadmap/parser/RoadMapInfo.java:49-51 | returns the height and changes nothing |
| Parser.RoadMapInfo.SetMapHeight | src/roadmap/parser/RoadMapInfo.java:53-55 | only the height changes, to the argument |
| Geometry.ToLayout | src/roadmap/builder/RoadMapBuilder.java:128-129 | the per-axis transform `50 + 150·v`; `LayoutOnLattice` proves it lands on the lattice and inverts, and `ToLayoutStrictlyIncreasing` that it is strictly increasing |
| Geometry.ConvertPoint | src/roadmap/builder/RoadMapBuilder.java:126-131 | a converted point lies on the layout lattice (each coordinate is 50 modulo 150) and maps back to the grid point it came from |
| Geometry.LayoutOnLattice | src/roadmap/builder/RoadMapBuilder.java:128-129 | `50 + 150·v` is 50 modulo 150 and inverts to `v` |
| Geometry.SentinelLayout | src/roadmap/builder/RoadMapBuilder.java:126-131 | the "not placed" sentinel (-1, -1) converts to (-100, -100) |
| Geometry.ToLayoutStrictlyIncreasing | src/roadmap/builder/RoadMapBuilder.java:128-129 | the per-axis transform preserves order and equality in both directions |
| Geometry.ConvertPointInjective | src/roadmap/builder/RoadMapBuilder.java:126-131 | two grid points convert to the same layout point if and only if they are equal |
| Geometry.LayoutFitsJavaInt | src/roadmap/builder/RoadMapBuilder.java:128-129 | within the grid bound, a converted coordinate and that coordinate plus one cell fit a Java int |
| Geometry.IntersectionHitBox | src/roadmap/builder/RoadMapBuilder.java:82-84 | the hit box is an axis-aligned box; `IntersectionHitBoxIsCell` gives its edges |
| Geometry.HorizontalSingleRoadHitBox | src/roadmap/builder/RoadMapBuilder.java:133-152 | the hit box is an axis-aligned box; `RoadHitBoxMeetsEndpoints` and `DoubleLaneBands` give its edges |
| Geometry.HorizontalDoubleRoadHitBox | src/roadmap/builder/RoadMapBuilder.java:154-173 | the hit box is an axis-aligned box; `RoadHitBoxMeetsEndpoints`, `DoubleLaneBands` and `OppositeHorizontalLanesSplitBand` give its edges |
| Geometry.VerticalSingleRoadHitBox | src/roadmap/builder/RoadMapBuilder.java:175-194 | the hit box is an axis-aligned box; `RoadHitBoxMeetsEndpoints` and `DoubleLaneBands` give its edges |
| Geometry.VerticalDoubleRoadHitBox | src/roadmap/builder/RoadMapBuilder.java:196-215 | the hit box is an axis-aligned box; `RoadHitBoxMeetsEndpoints`, `DoubleLaneBands` and `OppositeVerticalLanesSplitBand` give its edges |
| Geometry.RoadHitBox | src/roadmap/builder/RoadMapBuilder.java:109-121 | the box chosen by orientation and lane count is an axis-aligned box; `RoadHitBoxMeetsEndpoints` states where it lies |
| Geometry.IntersectionHitBoxIsCell | src/roadmap/builder/RoadMapBuilder.java:82-84 | an intersection's hit box is the 50×50 box whose first corner is its converted coordinate |
| Geometry.RoadHitBoxMeetsEndpoints | src/roadmap/builder/RoadMapBuilder.java:133-215 | every road hit box is a box that runs, along the road's orientation, from the edge of the start intersection's box to the edge of the finish intersection's box, and stays within the finish intersection's band across it |
| Geometry.DoubleLaneBands | src/roadmap/builder/RoadMapBuilder.java:133-215 | a two-way lane has the one-way extent along its axis and half the cell across it: LEFT the lower half, RIGHT the upper, UP the left, DOWN the right; one-way boxes span the full cell |
| Geometry.OppositeHorizontalLanesSplitBand | src/roadmap/builder/RoadMapBuilder.java:154-173 | the LEFT and RIGHT lanes between two intersections in one row cover the same stretch and split the one-way band at its middle |
| Geometry.OppositeVerticalLanesSplitBand | src/roadmap/builder/RoadMapBuilder.java:196-215 | the UP and DOWN lanes between two intersections in one column cover the same stretch and split the one-way band at its middle |
| Geometry.CanvasExtent | src/roadmap/builder/RoadMapBuilder.java:51-52 | the canvas side in pixels; `CanvasIsScaledMap` gives its closed form and sign |
| Geometry.CanvasIsScaledMap | src/roadmap/builder/RoadMapBuilder.java:51-52 | the canvas extent `50·(3+3·(n−1))` equals `150·n`, and is positive exactly when `n` is |
| Geometry.CanvasFitsIff | src/roadmap/builder/RoadMapBuilder.java:51-53 | the canvas can be allocated if and only if both sides are positive and the map has at most 95,443 grid positions |
| Geometry.LargestSquareCanvas | src/roadmap/builder/RoadMapBuilder.java:51-53 | a 308 by 308 map gets its canvas and a 309 by 309 map does not |
| Geometry.CellInsideCanvasBorder | src/roadmap/builder/RoadMapBuilder.java:51-52 | every intersection cell of an n-wide grid lies inside the canvas's one-cell border |
| Connections.Compatible | src/roadmap/builder/RoadMapBuilder.java:231-239 | the orientation rule; `CompatibleIsStraightOrTurn`, `CompatibleTable`, `TurnsRotate` and `CompatibleAsymmetric` state what it accepts |
| Connections.CompatibleIsStraightOrTurn | src/roadmap/builder/RoadMapBuilder.java:231-239 | a pair is compatible if and only if it goes straight on or takes its orientation's one allowed turn (DOWN to LEFT, LEFT to UP, UP to RIGHT, RIGHT to DOWN) |
| Connections.CompatibleTable | src/roadmap/builder/RoadMapBuilder.java:231-239 | the compatible ordered pairs are exactly the 8 listed ones, out of the 16 |
| Connections.TurnsRotate | src/roadmap/builder/RoadMapBuilder.java:236-239 | the allowed turns form one rotation: a turn changes the orientation, two turns reverse it, four return to it, and reversing is never compatible |
| Connections.CompatibleAsymmetric | src/roadmap/builder/RoadMapBuilder.java:231-239 | a turn is allowed in one direction only; reversing a compatible turn is incompatible |
| Connections.Candidates | src/roadmap/builder/RoadMapBuilder.java:273-283 | the candidates are exactly the roads, in map order, that start at the road's finish, except the exact reverse road |
| Connections.CandidatesDistinct | src/roadmap/builder/RoadMapBuilder.java:273-283 | no candidate appears twice when the map order lists each road once |
| Connections.LegalConnections | src/roadmap/builder/RoadMapBuilder.java:227-244 | the connections a road gets are exactly one per compatible candidate: owned by the road, closed light, pointing at the candidate |
| Connections.LegalConnectionsDistinct | src/roadmap/builder/RoadMapBuilder.java:227-244 | distinct candidates give distinct connections |
| Connections.RoadConnections | src/roadmap/builder/RoadMapBuilder.java:221-244 | a road's connections are exactly the legal (road, successor) pairs: a non-U-turn road from its finish with a compatible orientation |
| Connections.RoadError | src/roadmap/builder/RoadMapBuilder.java:221-247 | whether a road is a dead end and of which kind; `RoadErrorIff` characterises each outcome |
| Connections.RoadErrorIff | src/roadmap/builder/RoadMapBuilder.java:221-247 | a road passes if and only if some road legally follows it; it is unconnectable if and only if no road is a candidate; otherwise it is incompatible |
| Connections.AddInbound | src/roadmap/builder/RoadMapBuilder.java:270 | appending touches only the finish intersection's inbound list, at its end |
| Connections.Run | src/roadmap/builder/RoadMapBuilder.java:217-249 | the build keeps the set of intersections |
| Connections.RunKeepsPlacement | src/roadmap/builder/RoadMapBuilder.java:217-249 | the build changes only inbound lists: ids, coordinates and hit boxes stay |
| Connections.RunStopsAtError | src/roadmap/builder/RoadMapBuilder.java:222-247 | once a road fails, the rest of the build changes nothing and the error stays |
| Connections.RunSucceedsIff | src/roadmap/builder/RoadMapBuilder.java:217-249 | the build succeeds if and only if no road is a dead end |
| Connections.RunErrorNamesDeadEnd | src/roadmap/builder/RoadMapBuilder.java:222-247 | a failed build names a visited road that has no candidate or no compatible candidate, with that road's own error |
| Connections.RunInbound | src/roadmap/builder/RoadMapBuilder.java:240-242 | after a successful build, an intersection's inbound list holds exactly its earlier connections plus the legal connections of the roads finishing there |
| Connections.RunKeepsInboundAtFinish | src/roadmap/builder/RoadMapBuilder.java:270 | every connection the build adds sits at the finish intersection of the road that owns it |
| Connections.RunConnectsOnlyDoneRoads | src/roadmap/builder/RoadMapBuilder.java:217-249 | on a freshly parsed map, every connection added so far is owned by a road already visited |
| Connections.RunInboundDistinct | src/roadmap/builder/RoadMapBuilder.java:227-244 | a successful build appends no connection twice to an intersection |
| Connections.BuiltGraphIsLegalPairs | src/roadmap/builder/RoadMapBuilder.java:217-249 | on a freshly parsed map, an intersection's built inbound list has no duplicates and holds a connection if and only if it is a closed light from a road finishing there onto a legal successor |
| Connections.NoUTurnInBuiltGraph | src/roadmap/builder/RoadMapBuilder.java:276-278 | every built connection's light is closed and leads onto a road starting at that intersection that is not the reverse of the owning road |
| Connections.EveryRoadConnected | src/roadmap/builder/RoadMapBuilder.java:240-247 | after a successful build, every road has a connection, and all of them sit at its finish intersection |
| Connections.ConnectedIsDestination | src/roadmap/builder/RoadMapBuilder.java:270 | on a freshly parsed map, an intersection holding a connection after the build is the finish of some road |
| Connections.DestinationIsConnected | src/roadmap/builder/RoadMapBuilder.java:240-247 | after a successful build, the finish intersection of every road has a connection |
| Connections.DestinationHasConnection | src/roadmap/builder/RoadMapBuilder.java:240-247 | after a successful build, any intersection some road finishes at has a connection |
| Connections.ReachableOnlyIfDestinations | src/roadmap/builder/RoadMapBuilder.java:43-48 | if the check passes, every intersection is the finish of some road |
| Connections.ReachableIfDestinations | src/roadmap/builder/RoadMapBuilder.java:43-48 | after a successful build, every intersection being some road's finish makes the check pass |
| Connections.ReachableIff | src/roadmap/builder/RoadMapBuilder.java:43-48 | after a successful build on a parsed map, the check passes if and only if every intersection is some road's finish |
| RoadMapBuilder.PaintStep | src/roadmap/builder/RoadMapBuilder.java:107-121 | setting a road's hit box again, whatever it held, gives the same road as setting it once |
| RoadMapBuilder.ConvertCoordinates | src/roadmap/builder/RoadMapBuilder.java:126-131 | returns a fresh Coordinates at `(50 + 150·x, 50 + 150·y)` that fits a Java int, and leaves the argument unchanged |
| RoadMapBuilder.ConvertedPoint | src/roadmap/builder/RoadMapBuilder.java:80 | the point an intersection is drawn at is its converted coordinate |
| RoadMapBuilder.PaintIntersections | src/roadmap/builder/RoadMapBuilder.java:76-87 | every intersection gets the square hit box around its converted coordinate, and nothing else changes |
| RoadMapBuilder.PaintRoads | src/roadmap/builder/RoadMapBuilder.java:93-124 | exactly the roads owning some inbound connection get the hit box computed from their finish and start layout points; the others are unchanged |
| RoadMapBuilder.PaintInbound | src/roadmap/builder/RoadMapBuilder.java:101-122 | the roads owning one intersection's inbound connections are added to the painted roads |
| RoadMapBuilder.GraphicBuilder | src/roadmap/builder/RoadMapBuilder.java:50-60 | fails, changing nothing, exactly when the canvas cannot be allocated (a side not positive, or `Integer.MAX_VALUE` pixels or more); otherwise assigns all intersection and road hit boxes |
| RoadMapBuilder.PossibleConnections | src/roadmap/builder/RoadMapBuilder.java:273-283 | returns exactly the candidate successors in map order, reading the map only |
| RoadMapBuilder.BuildConnection | src/roadmap/builder/RoadMapBuilder.java:258-271 | appends exactly one connection, owned by the source road with a closed light to the destination, to the source's finish intersection; no other intersection changes |
| RoadMapBuilder.ConnectCandidates | src/roadmap/builder/RoadMapBuilder.java:227-244 | appends one connection per compatible candidate, in order, and reports whether there was any |
| RoadMapBuilder.ConnectionBuilder | src/roadmap/builder/RoadMapBuilder.java:217-249 | its error and the new intersections are those of the build over the roads in map order |
| RoadMapBuilder.ConnectionChecker | src/roadmap/builder/RoadMapBuilder.java:43-48 | fails if and only if some intersection has an empty inbound list, names such an intersection, and changes nothing |
| RoadMapBuilder.RunKeepsGrid | src/roadmap/builder/RoadMapBuilder.java:217-249 | the build moves no intersection, so the coordinates stay within the grid bound |
| RoadMapBuilder.RunConnectsEveryRoad | src/roadmap/builder/RoadMapBuilder.java:93-124 | after a successful build every road owns an inbound connection, so the road painting reaches every road |
| RoadMapBuilder.BuildAdvancedInfo | src/roadmap/builder/RoadMapBuilder.java:29-41 | returns the same road map if and only if the build succeeds, every intersection is reachable and the canvas can be allocated; otherwise null, with the partial connections kept and the roads unchanged; on success every intersection and every road holds its hit box |
| Scenarios.RingRoadsAreFine | src/roadmap/builder/RoadMapBuilder.java:221-247 | every road of a four-road turning ring, with or without a feeder road, has a legal successor |
| Scenarios.RingConnects | src/roadmap/builder/RoadMapBuilder.java:217-249 | in any road order, the build over the ring succeeds and every intersection ends with exactly one connection, from the road arriving there onto the road leaving it |
| Scenarios.IsolatedRoadIsUnconnectable | src/roadmap/builder/RoadMapBuilder.java:221-223 | a lone road is reported unconnectable |
| Scenarios.HeadOnPairIsUnconnectable | src/roadmap/builder/RoadMapBuilder.java:276-278 | two head-on roads are each other's U-turn, so the first is unconnectable |
| Scenarios.FeederStartIsUnreachable | src/roadmap/builder/RoadMapBuilder.java:43-48 | a feeder road into the ring connects, but its start intersection is unreachable, so the check fails |

## Left out

- Image I/O is not modelled: the texture reads (`RoadMapBuilder.java:63-64, 77, 94-97`) and the write of `saved.png` (`:34-35`). They are file-system calls.
- Pixel rendering is not modelled: the `Graphics2D` contexts, every `drawImage` call, the tile loops of the paint methods, `paintFloor` (`:62-74`), and storing the image with `setBackgroundImage` (`:59`). Only the hit-box corner arrays are kept. A `java.awt.Polygon` is a pair of corner sequences.
- `buildTrafficLightPosition` (`:89-91`) is an empty TODO with no behaviour.
- `e.printStackTrace()` (`:38`) is console output. The failure itself is modelled as the null result.
- The commented-out `determineRoadOrientation` (`:251-256`) is not modelled.
- The `defaultSpeed`, `defaultRoadCapacity` and `defaultNumberCars` accessors (`RoadMapInfo.java:57-79`) are not modelled. The builder never reads them, so they stay inert fields.
- RoadMapBuilder.BuildAdvancedInfo: a failed texture read or a failed write of `saved.png` also makes Java return null. The model does not capture this, because that I/O is not modelled.
- RoadMapBuilder.GraphicBuilder: a canvas under the pixel limit can still exhaust the Java heap. The resulting `OutOfMemoryError` is not an `Exception` and escapes `buildAdvancedInfo`. Heap size is a property of the running JVM, so it is not modelled.
- RoadMapBuilder.ConvertCoordinates: requires both coordinates within `|v| <= 14,000,000`. Java's 32-bit wrap-around beyond that bound is not modelled.
- RoadMapBuilder.BuildAdvancedInfo: requires every intersection within the grid bound and both canvas sizes to fit a Java `int`. Overflowing maps are not modelled.
- RoadMapBuilder.PaintRoads: requires every inbound connection to belong to a road finishing at its intersection. Parsed maps have no connections, and the build keeps this property (`Connections.RunKeepsInboundAtFinish`). A hand-made map that breaks it is not modelled.
- Connections and traffic lights are values, not shared objects. Nothing in the builder changes them after creation, so no aliasing is lost.
