/**
 * The road-map builder: builds the connection graph of a parsed road map in
 * place, validates it, and assigns the hit boxes of intersections and roads.
 *
 * `order` stands for the iteration order of the roads map, which the build
 * does not choose; the intersections map is visited in an arbitrary order.
 */
module RoadMapBuilder {
  import opened RoadMap
  import opened Parser
  import opened Geometry
  import opened Connections

  // ---------------------------------------------------------------------------
  // Specification of the graphics phase

  function CoordinateObjects(ints: map<int, Intersection>): set<Coordinates> {
    set i | i in ints :: ints[i].coordinates
  }

  /** Every intersection's coordinates are within the bounds where layout arithmetic cannot overflow. */
  predicate CoordinatesInGrid(ints: map<int, Intersection>)
    reads CoordinateObjects(ints)
  {
    forall i :: i in ints ==> InGrid(ints[i].coordinates.xCoord) && InGrid(ints[i].coordinates.yCoord)
  }

  /** The converted coordinates of an intersection. */
  function LayoutOf(inter: Intersection): Point
    reads inter.coordinates
  {
    ConvertPoint(Point(inter.coordinates.xCoord, inter.coordinates.yCoord))
  }

  /** The layout position of every intersection, by id. */
  function Layout(ints: map<int, Intersection>): (layout: map<int, Point>)
    reads CoordinateObjects(ints)
    ensures layout.Keys == ints.Keys
  {
    map i | i in ints :: LayoutOf(ints[i])
  }

  /** Every intersection with the square hit box around its layout position. */
  function PaintedIntersections(ints: map<int, Intersection>, layout: map<int, Point>): map<int, Intersection>
    requires ints.Keys <= layout.Keys
  {
    map i | i in ints :: ints[i].(hitBox := Some(IntersectionHitBox(layout[i])))
  }

  /** Both ends of every road have a layout position. */
  predicate Placed(roads: map<int, Road>, layout: map<int, Point>) {
    forall r :: r in roads ==> roads[r].startIntersection in layout && roads[r].finishIntersection in layout
  }

  /** The hit box of `road`, from the layout positions of its finish and start intersections. */
  function ExpectedRoadHitBox(road: Road, layout: map<int, Point>): Polygon
    requires road.startIntersection in layout && road.finishIntersection in layout
  {
    RoadHitBox(road.roadOrientation, road.isSingleDirection,
               layout[road.finishIntersection], layout[road.startIntersection])
  }

  /** The roads owning the connections `conns`. */
  function RoadsOf(conns: seq<Connection>): set<int> {
    set conn | conn in conns :: conn.connectedRoad
  }

  /** The roads owning an inbound connection of one of the intersections `keys`. */
  function ConnectedRoads(ints: map<int, Intersection>, keys: set<int>): set<int> {
    set i, conn | i in keys && i in ints && conn in ints[i].inboundConnections :: conn.connectedRoad
  }

  /** `road` with its hit box assigned. */
  function PaintedRoad(road: Road, layout: map<int, Point>): Road
    requires road.startIntersection in layout && road.finishIntersection in layout
  {
    road.(hitBox := Some(ExpectedRoadHitBox(road, layout)))
  }

  /** The roads `painted` with their hit boxes assigned; the others as they were. */
  function PaintedOn(roads: map<int, Road>, layout: map<int, Point>, painted: set<int>): map<int, Road>
    requires Placed(roads, layout)
  {
    map r | r in roads :: if r in painted then PaintedRoad(roads[r], layout) else roads[r]
  }

  /** Every road that owns some inbound connection of `ints` with its hit box assigned; the others as they were. */
  function PaintedRoads(roads: map<int, Road>, ints: map<int, Intersection>, layout: map<int, Point>): map<int, Road>
    requires Placed(roads, layout)
  {
    PaintedOn(roads, layout, ConnectedRoads(ints, ints.Keys))
  }

  /** Painting road `r` again, whatever hit box it holds, extends the painted set by `r`. */
  lemma PaintStep(roads: map<int, Road>, layout: map<int, Point>, painted: set<int>, r: int)
    requires Placed(roads, layout) && r in roads
    ensures var current := PaintedOn(roads, layout, painted);
      current[r := PaintedRoad(current[r], layout)] == PaintedOn(roads, layout, painted + {r})
  {
    var current := PaintedOn(roads, layout, painted);
    var lhs := current[r := PaintedRoad(current[r], layout)];
    var rhs := PaintedOn(roads, layout, painted + {r});
    assert lhs.Keys == rhs.Keys;
    assert forall q :: q in lhs ==> lhs[q] == rhs[q];
  }

  /** Visiting one more intersection adds the owners of its inbound connections. */
  lemma ConnectedRoadsStep(ints: map<int, Intersection>, keys: set<int>, k: int)
    requires k in ints
    ensures ConnectedRoads(ints, keys + {k}) == ConnectedRoads(ints, keys) + RoadsOf(ints[k].inboundConnections)
  {
  }

  /** Nothing painted leaves the roads as they are. */
  lemma PaintedOnNothing(roads: map<int, Road>, layout: map<int, Point>)
    requires Placed(roads, layout)
    ensures PaintedOn(roads, layout, {}) == roads
  {
    assert forall r :: r in roads ==> PaintedOn(roads, layout, {})[r] == roads[r];
  }

  /** A set with no member is the empty set. */
  lemma NoMemberIsEmpty(s: set<int>)
    requires forall y :: y !in s
    ensures s == {}
  {
    assert forall y :: y in s <==> y in {};
  }

  /** A non-empty set of keys has a member a loop can pick. */
  lemma HasMember(s: set<int>)
    requires s != {}
    ensures exists k :: k in s
  {
    if forall y :: y !in s {
      NoMemberIsEmpty(s);
      assert false;
    }
  }

  // ---------------------------------------------------------------------------
  // Geometry

  /** A new Coordinates object holding the layout position of `realCoordinates`. */
  method ConvertCoordinates(realCoordinates: Coordinates) returns (convertedCoordinates: Coordinates)
    requires InGrid(realCoordinates.xCoord) && InGrid(realCoordinates.yCoord)
    ensures fresh(convertedCoordinates)
    ensures Point(convertedCoordinates.xCoord, convertedCoordinates.yCoord)
         == ConvertPoint(Point(realCoordinates.xCoord, realCoordinates.yCoord))
    ensures IsJavaInt(convertedCoordinates.xCoord) && IsJavaInt(convertedCoordinates.yCoord)
  {
    convertedCoordinates := new Coordinates.Unplaced();
    var x := realCoordinates.GetXCoord();
    convertedCoordinates.SetXCoord(CELL_SIZE + CELL_SIZE * 3 * x);
    var y := realCoordinates.GetYCoord();
    convertedCoordinates.SetYCoord(CELL_SIZE + CELL_SIZE * 3 * y);
    LayoutFitsJavaInt(x);
    LayoutFitsJavaInt(y);
  }

  /** The layout point an intersection is drawn at. */
  method ConvertedPoint(inter: Intersection) returns (p: Point)
    requires InGrid(inter.coordinates.xCoord) && InGrid(inter.coordinates.yCoord)
    ensures p == LayoutOf(inter)
  {
    var converted := ConvertCoordinates(inter.coordinates);
    var x := converted.GetXCoord();
    var y := converted.GetYCoord();
    p := Point(x, y);
  }

  /** Assigns every intersection the square hit box around its layout position. */
  method PaintIntersections(info: RoadMapInfo)
    requires CoordinatesInGrid(info.intersections)
    modifies info`intersections
    ensures info.intersections == PaintedIntersections(old(info.intersections), Layout(old(info.intersections)))
  {
    ghost var ints0 := info.intersections;
    ghost var painted := PaintedIntersections(ints0, Layout(ints0));
    var remaining := info.intersections.Keys;
    while remaining != {}
      invariant remaining <= ints0.Keys
      invariant info.intersections.Keys == ints0.Keys
      invariant forall i :: i in ints0 ==> info.intersections[i] == if i in remaining then ints0[i] else painted[i]
      decreases remaining
    {
      HasMember(remaining);
      var k :| k in remaining;
      var inter := info.intersections[k];
      var coord := ConvertedPoint(inter);
      assert inter.(hitBox := Some(IntersectionHitBox(coord))) == painted[k];
      info.intersections := info.intersections[k := inter.(hitBox := Some(IntersectionHitBox(coord)))];
      remaining := remaining - {k};
    }
    assert forall i :: i in ints0 ==> info.intersections[i] == painted[i];
  }

  /**
   * Assigns each road owning an inbound connection its hit box, once per
   * connection, from the layout positions of the intersection holding the
   * connection and of the road's start intersection.
   */
  method PaintRoads(info: RoadMapInfo)
    requires EndpointsResolve(info.roads, info.intersections)
    requires InboundAtFinish(info.roads, info.intersections)
    requires CoordinatesInGrid(info.intersections)
    modifies info`roads
    ensures info.roads == PaintedRoads(old(info.roads), info.intersections, Layout(info.intersections))
  {
    ghost var roads0 := info.roads;
    var ints := info.intersections;
    var remaining := ints.Keys;
    ghost var visited: set<int> := {};
    PaintedOnNothing(roads0, Layout(ints));
    assert ConnectedRoads(ints, visited) == {};
    while remaining != {}
      invariant visited <= ints.Keys && remaining == ints.Keys - visited
      invariant info.roads == PaintedOn(roads0, Layout(ints), ConnectedRoads(ints, visited))
      decreases remaining
    {
      HasMember(remaining);
      var k :| k in remaining;
      PaintInbound(info, ints, k, roads0, ConnectedRoads(ints, visited));
      ConnectedRoadsStep(ints, visited, k);
      visited := visited + {k};
      remaining := remaining - {k};
    }
    assert visited == ints.Keys;
  }

  /**
   * The inner loop of `PaintRoads`: assigns the hit box of the road owning
   * each inbound connection of intersection `k`.
   */
  method PaintInbound(info: RoadMapInfo, ints: map<int, Intersection>, k: int,
                      ghost roads0: map<int, Road>, ghost painted: set<int>)
    requires k in ints && EndpointsResolve(roads0, ints) && InboundAtFinish(roads0, ints)
    requires CoordinatesInGrid(ints)
    requires info.roads == PaintedOn(roads0, Layout(ints), painted)
    modifies info`roads
    ensures info.roads == PaintedOn(roads0, Layout(ints), painted + RoadsOf(ints[k].inboundConnections))
  {
    ghost var layout := Layout(ints);
    var coord := ConvertedPoint(ints[k]);
    var inbound := ints[k].inboundConnections;
    var j := 0;
    assert RoadsOf(inbound[..j]) == {};
    assert painted + RoadsOf(inbound[..j]) == painted;
    while j < |inbound|
      invariant 0 <= j <= |inbound|
      invariant forall i :: i in ints ==> LayoutOf(ints[i]) == layout[i]
      invariant info.roads == PaintedOn(roads0, layout, painted + RoadsOf(inbound[..j]))
    {
      var connect := inbound[j];
      assert connect in ints[k].inboundConnections;
      var id := connect.connectedRoad;
      var road := info.roads[id];
      assert road == roads0[id].(hitBox := road.hitBox);
      var source := ConvertedPoint(ints[road.startIntersection]);
      var hitBox := RoadHitBox(road.roadOrientation, road.isSingleDirection, coord, source);
      assert road.(hitBox := Some(hitBox)) == PaintedRoad(road, layout);
      PaintStep(roads0, layout, painted + RoadsOf(inbound[..j]), id);
      info.roads := info.roads[id := road.(hitBox := Some(hitBox))];
      assert RoadsOf(inbound[..j + 1]) == RoadsOf(inbound[..j]) + {id} by {
        assert inbound[..j + 1] == inbound[..j] + [connect];
      }
      j := j + 1;
    }
    assert inbound[..j] == inbound;
    assert forall i :: i in ints ==> Layout(ints)[i] == layout[i];
    assert Layout(ints) == layout;
  }

  /**
   * Sizes the canvas and assigns all hit boxes; fails, assigning nothing,
   * when the image library refuses to allocate the canvas.
   */
  method GraphicBuilder(info: RoadMapInfo) returns (ok: bool)
    requires EndpointsResolve(info.roads, info.intersections)
    requires InboundAtFinish(info.roads, info.intersections)
    requires CoordinatesInGrid(info.intersections)
    requires IsJavaInt(CanvasExtent(info.mapWidth)) && IsJavaInt(CanvasExtent(info.mapHeight))
    modifies info`intersections, info`roads
    ensures ok <==> CanvasFits(info.mapWidth, info.mapHeight)
    ensures !ok ==> info.intersections == old(info.intersections) && info.roads == old(info.roads)
    ensures ok ==> && info.intersections == PaintedIntersections(old(info.intersections), Layout(old(info.intersections)))
                   && info.roads == PaintedRoads(old(info.roads), old(info.intersections), Layout(old(info.intersections)))
  {
    var mapWidth := info.GetMapWidth();
    var mapHeight := info.GetMapHeight();
    var width := CELL_SIZE * (3 + 3 * (mapWidth - 1));
    var height := CELL_SIZE * (3 + 3 * (mapHeight - 1));
    if width <= 0 || height <= 0 || width * height >= JAVA_INT_MAX {
      return false;
    }
    PaintIntersections(info);
    PaintRoads(info);
    ok := true;
  }

  // ---------------------------------------------------------------------------
  // Connection graph

  /** The candidate successors of `road`: the roads leaving its finish intersection, except its reverse. */
  method PossibleConnections(road: Road, info: RoadMapInfo, order: seq<int>) returns (possible: seq<int>)
    requires Keyed(info.roads, order)
    ensures possible == Candidates(info.roads, order, road)
  {
    possible := [];
    var k := 0;
    while k < |order|
      invariant 0 <= k <= |order|
      invariant possible == Candidates(info.roads, order[..k], road)
    {
      assert order[..k + 1][..k] == order[..k];
      var id := order[k];
      var entry := info.roads[id];
      if entry.startIntersection == road.finishIntersection && entry.finishIntersection == road.startIntersection {
        k := k + 1;
        continue;
      }
      if entry.startIntersection == road.finishIntersection {
        possible := possible + [id];
      }
      k := k + 1;
    }
    assert order[..k] == order;
  }

  /**
   * Appends to `sourceRoad`'s finish intersection a connection owned by
   * `sourceRoad` whose closed light leads onto `destinationRoad`.
   */
  method BuildConnection(info: RoadMapInfo, sourceRoad: int, destinationRoad: int)
    requires sourceRoad in info.roads && info.roads[sourceRoad].finishIntersection in info.intersections
    modifies info`intersections
    ensures info.intersections == AddInbound(old(info.intersections), info.roads[sourceRoad].finishIntersection,
                                             [NewConnection(sourceRoad, destinationRoad)])
  {
    var trafficLight := TrafficLight(false, destinationRoad);
    var connection := Connection(sourceRoad, trafficLight);
    var finish := info.roads[sourceRoad].finishIntersection;
    var inter := info.intersections[finish];
    info.intersections := info.intersections[finish := inter.(inboundConnections := inter.inboundConnections + [connection])];
  }

  /**
   * For every road, appends one connection per compatible candidate to its
   * finish intersection; stops at the first road with no candidate or no
   * compatible candidate, leaving the connections added so far.
   */
  method ConnectionBuilder(info: RoadMapInfo, order: seq<int>) returns (error: Option<BuildError>)
    requires Enumerates(order, info.roads.Keys)
    requires EndpointsResolve(info.roads, info.intersections)
    modifies info`intersections
    ensures var run := Run(info.roads, order, old(info.intersections), order);
      error == run.error && info.intersections == run.intersections
  {
    ghost var ints0 := info.intersections;
    var k := 0;
    while k < |order|
      invariant 0 <= k <= |order|
      invariant Run(info.roads, order, ints0, order[..k]) == Progress(info.intersections, None)
    {
      var r := order[k];
      assert order[..k + 1] == order[..k] + [r];
      RunAppend(info.roads, order, ints0, order[..k], r);
      var road := info.roads[r];
      var possible := PossibleConnections(road, info, order);
      if |possible| == 0 {
        RunStopsAtError(info.roads, order, ints0, order, k + 1);
        return Some(UnconnectableRoad(r));
      }
      ghost var before := info.intersections;
      var validConnections := ConnectCandidates(info, r, possible);
      if !validConnections {
        AddInboundNothing(before, road.finishIntersection);
        RunStopsAtError(info.roads, order, ints0, order, k + 1);
        return Some(IncompatibleRoad(r));
      }
      k := k + 1;
    }
    assert order[..k] == order;
    error := None;
  }

  /**
   * The inner loop of `ConnectionBuilder`: connects road `r` to each of its
   * candidates whose orientation is compatible, and says whether there was one.
   */
  method ConnectCandidates(info: RoadMapInfo, r: int, possible: seq<int>) returns (validConnections: bool)
    requires r in info.roads && Keyed(info.roads, possible)
    requires info.roads[r].finishIntersection in info.intersections
    modifies info`intersections
    ensures info.intersections
         == AddInbound(old(info.intersections), info.roads[r].finishIntersection, LegalConnections(info.roads, r, possible))
    ensures validConnections <==> LegalConnections(info.roads, r, possible) != []
  {
    var road := info.roads[r];
    ghost var before := info.intersections;
    ghost var finish := road.finishIntersection;
    AddInboundNothing(before, finish);
    validConnections := false;
    var j := 0;
    while j < |possible|
      invariant 0 <= j <= |possible|
      invariant info.intersections == AddInbound(before, finish, LegalConnections(info.roads, r, possible[..j]))
      invariant validConnections <==> LegalConnections(info.roads, r, possible[..j]) != []
    {
      assert possible[..j + 1][..j] == possible[..j];
      var destinationRoad := possible[j];
      assert destinationRoad in possible;
      var orientation1 := road.roadOrientation;
      var orientation2 := info.roads[destinationRoad].roadOrientation;
      var valid := false;
      valid := valid || (orientation1 == DOWN && orientation2 == DOWN);
      valid := valid || (orientation1 == UP && orientation2 == UP);
      valid := valid || (orientation1 == LEFT && orientation2 == LEFT);
      valid := valid || (orientation1 == RIGHT && orientation2 == RIGHT);
      valid := valid || (orientation1 == DOWN && orientation2 == LEFT);
      valid := valid || (orientation1 == UP && orientation2 == RIGHT);
      valid := valid || (orientation1 == LEFT && orientation2 == UP);
      valid := valid || (orientation1 == RIGHT && orientation2 == DOWN);
      if valid {
        AddInboundTwice(before, finish, LegalConnections(info.roads, r, possible[..j]), [NewConnection(r, destinationRoad)]);
        BuildConnection(info, r, destinationRoad);
        validConnections := true;
      }
      j := j + 1;
    }
    assert possible[..j] == possible;
  }

  /** Fails, naming an intersection with no inbound connection, if there is one; changes nothing. */
  method ConnectionChecker(info: RoadMapInfo) returns (error: Option<BuildError>)
    ensures error.None? <==> AllReachable(info.intersections)
    ensures error.Some? ==> && error.value.UnreachableIntersection?
                            && error.value.intersection in info.intersections
                            && |info.intersections[error.value.intersection].inboundConnections| == 0
  {
    var remaining := info.intersections.Keys;
    while remaining != {}
      invariant remaining <= info.intersections.Keys
      invariant forall i :: i in info.intersections && i !in remaining ==> |info.intersections[i].inboundConnections| > 0
      decreases remaining
    {
      HasMember(remaining);
      var i :| i in remaining;
      if |info.intersections[i].inboundConnections| <= 0 {
        return Some(UnreachableIntersection(i));
      }
      remaining := remaining - {i};
    }
    return None;
  }

  /** The connection build moves no intersection. */
  lemma RunKeepsGrid(roads: map<int, Road>, order: seq<int>, ints: map<int, Intersection>)
    requires Keyed(roads, order) && EndpointsResolve(roads, ints)
    requires CoordinatesInGrid(ints)
    ensures CoordinatesInGrid(Run(roads, order, ints, order).intersections)
  {
    var after := Run(roads, order, ints, order).intersections;
    forall i | i in after
      ensures InGrid(after[i].coordinates.xCoord) && InGrid(after[i].coordinates.yCoord)
    {
      RunKeepsPlacement(roads, order, ints, order, i);
    }
  }

  /** After a successful build every road owns an inbound connection, so every road is painted. */
  lemma RunConnectsEveryRoad(roads: map<int, Road>, order: seq<int>, ints: map<int, Intersection>)
    requires Enumerates(order, roads.Keys) && EndpointsResolve(roads, ints)
    requires Run(roads, order, ints, order).error.None?
    ensures var after := Run(roads, order, ints, order).intersections;
      roads.Keys <= ConnectedRoads(after, after.Keys)
  {
    var after := Run(roads, order, ints, order).intersections;
    forall r | r in roads ensures r in ConnectedRoads(after, after.Keys) {
      EveryRoadConnected(roads, order, ints, r);
      var conns := RoadConnections(roads, order, r);
      var f := roads[r].finishIntersection;
      assert conns[0] in conns;
      assert f in after && conns[0] in after[f].inboundConnections;
      assert conns[0].connectedRoad == r;
    }
  }

  /**
   * Builds and validates the connection graph, then assigns the hit boxes.
   * Returns the same road map on success and null if any phase fails; a
   * failed build keeps the connections added before the failure.
   */
  method BuildAdvancedInfo(info: RoadMapInfo, order: seq<int>) returns (result: RoadMapInfo?)
    requires Enumerates(order, info.roads.Keys)
    requires EndpointsResolve(info.roads, info.intersections)
    requires InboundAtFinish(info.roads, info.intersections)
    requires CoordinatesInGrid(info.intersections)
    requires IsJavaInt(CanvasExtent(info.mapWidth)) && IsJavaInt(CanvasExtent(info.mapHeight))
    modifies info`intersections, info`roads
    ensures result == null || result == info
    ensures info.mapWidth == old(info.mapWidth) && info.mapHeight == old(info.mapHeight)
    ensures var run := Run(old(info.roads), order, old(info.intersections), order);
      && (result != null <==> && run.error.None? && AllReachable(run.intersections)
                              && CanvasFits(info.mapWidth, info.mapHeight))
      && (result == null ==> info.intersections == run.intersections && info.roads == old(info.roads))
      && (result != null ==> && info.intersections == PaintedIntersections(run.intersections, Layout(run.intersections))
                             && info.roads == PaintedRoads(old(info.roads), run.intersections, Layout(run.intersections)))
      && (result != null ==> forall r :: r in old(info.roads) ==>
            r in info.roads && info.roads[r] == PaintedRoad(old(info.roads)[r], Layout(run.intersections)))
  {
    ghost var ints0 := info.intersections;
    var error := ConnectionBuilder(info, order);
    if error.Some? {
      return null;
    }
    RunKeepsInboundAtFinish(info.roads, order, ints0, order);
    RunKeepsGrid(info.roads, order, ints0);
    error := ConnectionChecker(info);
    if error.Some? {
      return null;
    }
    RunConnectsEveryRoad(info.roads, order, ints0);
    var ok := GraphicBuilder(info);
    if !ok {
      return null;
    }
    return info;
  }
}
