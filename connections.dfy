/**
 * Specification of the connection graph the builder derives from a road map:
 * which roads may follow which, the connections each road contributes to its
 * finish intersection, and how the build stops at the first dead-end road.
 *
 * `order` is the order in which the roads map is iterated (any enumeration
 * of its keys); the connection lists record roads in that order.
 */
module Connections {
  import opened RoadMap

  /** The configuration errors that abort a build. */
  datatype BuildError =
    | UnconnectableRoad(road: int)
    | IncompatibleRoad(road: int)
    | UnreachableIntersection(intersection: int)

  // ---------------------------------------------------------------------------
  // Orientation compatibility

  /** A road with orientation `o1` may be followed by one with orientation `o2`. */
  predicate Compatible(o1: Orientation, o2: Orientation) {
    || (o1 == DOWN && o2 == DOWN)
    || (o1 == UP && o2 == UP)
    || (o1 == LEFT && o2 == LEFT)
    || (o1 == RIGHT && o2 == RIGHT)
    || (o1 == DOWN && o2 == LEFT)
    || (o1 == UP && o2 == RIGHT)
    || (o1 == LEFT && o2 == UP)
    || (o1 == RIGHT && o2 == DOWN)
  }

  /** The one turn allowed out of each orientation. */
  function Turn(o: Orientation): Orientation {
    match o
    case DOWN => LEFT
    case LEFT => UP
    case UP => RIGHT
    case RIGHT => DOWN
  }

  function Opposite(o: Orientation): Orientation {
    match o
    case UP => DOWN
    case DOWN => UP
    case LEFT => RIGHT
    case RIGHT => LEFT
  }

  const AllOrientations: set<Orientation> := {UP, DOWN, LEFT, RIGHT}

  /** The ordered orientation pairs the compatibility rule accepts. */
  function CompatiblePairs(): set<(Orientation, Orientation)> {
    set o1, o2 | o1 in AllOrientations && o2 in AllOrientations && Compatible(o1, o2) :: (o1, o2)
  }

  /** A continuation goes straight on or takes the orientation's one turn. */
  lemma CompatibleIsStraightOrTurn(o1: Orientation, o2: Orientation)
    ensures Compatible(o1, o2) <==> o2 == o1 || o2 == Turn(o1)
  {
  }

  /** The rule accepts exactly these 8 of the 16 ordered pairs. */
  lemma CompatibleTable()
    ensures CompatiblePairs() == {(DOWN, DOWN), (UP, UP), (LEFT, LEFT), (RIGHT, RIGHT),
                                  (DOWN, LEFT), (UP, RIGHT), (LEFT, UP), (RIGHT, DOWN)}
    ensures |CompatiblePairs()| == 8
  {
    var table := {(DOWN, DOWN), (UP, UP), (LEFT, LEFT), (RIGHT, RIGHT),
                  (DOWN, LEFT), (UP, RIGHT), (LEFT, UP), (RIGHT, DOWN)};
    forall p | p in CompatiblePairs() ensures p in table {
      assert p.0 in AllOrientations && p.1 in AllOrientations && Compatible(p.0, p.1);
    }
    forall p | p in table ensures p in CompatiblePairs() {
      assert Compatible(p.0, p.1);
    }
    assert CompatiblePairs() == table;
  }

  /** The turns form one rotation DOWN, LEFT, UP, RIGHT; reversing is never allowed. */
  lemma TurnsRotate(o: Orientation)
    ensures Turn(o) != o && Turn(Turn(o)) == Opposite(o) && Turn(Turn(Turn(Turn(o)))) == o
    ensures !Compatible(o, Opposite(o))
  {
  }

  /** Only straight continuation is allowed in both directions. */
  lemma CompatibleAsymmetric(o1: Orientation, o2: Orientation)
    requires o1 != o2 && Compatible(o1, o2)
    ensures !Compatible(o2, o1)
  {
  }

  // ---------------------------------------------------------------------------
  // Well-formed road maps

  predicate Distinct<T(==)>(s: seq<T>) {
    forall i, j :: 0 <= i < j < |s| ==> s[i] != s[j]
  }

  /** Every id in `ids` names a road. */
  predicate Keyed(roads: map<int, Road>, ids: seq<int>) {
    forall k :: k in ids ==> k in roads
  }

  /** `order` lists every key of the map exactly once. */
  predicate Enumerates(order: seq<int>, keys: set<int>) {
    (forall k :: k in order ==> k in keys) && (forall k :: k in keys ==> k in order) && Distinct(order)
  }

  /** Both ends of every road are intersections of the map. */
  predicate EndpointsResolve(roads: map<int, Road>, ints: map<int, Intersection>) {
    forall r :: r in roads ==> roads[r].startIntersection in ints && roads[r].finishIntersection in ints
  }

  /** Every inbound connection of an intersection is a road finishing there. */
  predicate InboundAtFinish(roads: map<int, Road>, ints: map<int, Intersection>) {
    forall i, conn :: i in ints && conn in ints[i].inboundConnections ==>
      conn.connectedRoad in roads && roads[conn.connectedRoad].finishIntersection == i
  }

  predicate NoConnections(ints: map<int, Intersection>) {
    forall i :: i in ints ==> ints[i].inboundConnections == []
  }

  /** No intersection is left without an inbound connection. */
  predicate AllReachable(ints: map<int, Intersection>) {
    forall i :: i in ints ==> |ints[i].inboundConnections| > 0
  }

  // ---------------------------------------------------------------------------
  // Candidate successors

  /** `entry` is the exact reverse of `road`. */
  predicate IsUTurn(road: Road, entry: Road) {
    entry.startIntersection == road.finishIntersection && entry.finishIntersection == road.startIntersection
  }

  /** `entry` leaves from `road`'s finish intersection and is not its reverse. */
  predicate IsCandidate(road: Road, entry: Road) {
    entry.startIntersection == road.finishIntersection && !IsUTurn(road, entry)
  }

  /** The candidate successors of `road`, in iteration order. */
  function Candidates(roads: map<int, Road>, order: seq<int>, road: Road): (cands: seq<int>)
    requires Keyed(roads, order)
    ensures forall e :: e in cands <==> e in order && IsCandidate(road, roads[e])
    ensures |cands| <= |order|
    decreases |order|
  {
    if order == [] then []
    else
      var prev := Candidates(roads, order[..|order| - 1], road);
      var e := order[|order| - 1];
      var entry := roads[e];
      if entry.startIntersection == road.finishIntersection && entry.finishIntersection == road.startIntersection then prev
      else if entry.startIntersection == road.finishIntersection then prev + [e]
      else prev
  }

  lemma {:induction false} CandidatesDistinct(roads: map<int, Road>, order: seq<int>, road: Road)
    requires Keyed(roads, order) && Distinct(order)
    ensures Distinct(Candidates(roads, order, road))
    decreases |order|
  {
    if order != [] {
      var init := order[..|order| - 1];
      CandidatesDistinct(roads, init, road);
      assert order[|order| - 1] !in init;
    }
  }

  // ---------------------------------------------------------------------------
  // Connections of one road

  /** The connection built for `sourceRoad` continuing onto `destinationRoad`; its light starts closed. */
  function NewConnection(sourceRoad: int, destinationRoad: int): Connection {
    Connection(sourceRoad, TrafficLight(false, destinationRoad))
  }

  /** Road `c` may legally follow road `r`. */
  predicate LegalPair(roads: map<int, Road>, r: int, c: int) {
    && r in roads && c in roads
    && IsCandidate(roads[r], roads[c])
    && Compatible(roads[r].roadOrientation, roads[c].roadOrientation)
  }

  /** One connection per compatible candidate, in candidate order. */
  function LegalConnections(roads: map<int, Road>, r: int, cands: seq<int>): (conns: seq<Connection>)
    requires r in roads && Keyed(roads, cands)
    ensures forall conn :: conn in conns <==>
      && conn == NewConnection(r, conn.trafficLight.destinationRoad)
      && conn.trafficLight.destinationRoad in cands
      && Compatible(roads[r].roadOrientation, roads[conn.trafficLight.destinationRoad].roadOrientation)
    ensures |conns| <= |cands|
    decreases |cands|
  {
    if cands == [] then []
    else
      var prev := LegalConnections(roads, r, cands[..|cands| - 1]);
      var c := cands[|cands| - 1];
      if Compatible(roads[r].roadOrientation, roads[c].roadOrientation) then prev + [NewConnection(r, c)]
      else prev
  }

  lemma {:induction false} LegalConnectionsDistinct(roads: map<int, Road>, r: int, cands: seq<int>)
    requires r in roads && Keyed(roads, cands) && Distinct(cands)
    ensures Distinct(LegalConnections(roads, r, cands))
    decreases |cands|
  {
    if cands != [] {
      var init := cands[..|cands| - 1];
      LegalConnectionsDistinct(roads, r, init);
      assert cands[|cands| - 1] !in init;
    }
  }

  /** The connections road `r` adds to its finish intersection. */
  function RoadConnections(roads: map<int, Road>, order: seq<int>, r: int): (conns: seq<Connection>)
    requires r in roads && Keyed(roads, order)
    ensures forall conn :: conn in conns <==>
      && conn == NewConnection(r, conn.trafficLight.destinationRoad)
      && conn.trafficLight.destinationRoad in order
      && LegalPair(roads, r, conn.trafficLight.destinationRoad)
  {
    LegalConnections(roads, r, Candidates(roads, order, roads[r]))
  }

  /** Whether road `r` is a dead end, and of which kind. */
  function RoadError(roads: map<int, Road>, order: seq<int>, r: int): Option<BuildError>
    requires r in roads && Keyed(roads, order)
  {
    if |Candidates(roads, order, roads[r])| == 0 then Some(UnconnectableRoad(r))
    else if RoadConnections(roads, order, r) == [] then Some(IncompatibleRoad(r))
    else None
  }

  /**
   * A road is fine exactly when some road legally follows it; it is
   * unconnectable exactly when no road is a candidate at all.
   */
  lemma RoadErrorIff(roads: map<int, Road>, order: seq<int>, r: int)
    requires r in roads && Keyed(roads, order)
    ensures RoadError(roads, order, r).None? <==> exists c :: c in order && LegalPair(roads, r, c)
    ensures RoadError(roads, order, r) == Some(UnconnectableRoad(r)) <==>
      forall c :: c in order ==> !IsCandidate(roads[r], roads[c])
    ensures RoadError(roads, order, r).Some? ==>
      RoadError(roads, order, r) in {Some(UnconnectableRoad(r)), Some(IncompatibleRoad(r))}
  {
    var cands := Candidates(roads, order, roads[r]);
    var conns := RoadConnections(roads, order, r);
    if conns != [] {
      assert conns[0] in conns;
      assert conns[0].trafficLight.destinationRoad in cands;
    }
    if exists c :: c in order && LegalPair(roads, r, c) {
      var c :| c in order && LegalPair(roads, r, c);
      assert NewConnection(r, c) in conns;
    }
    if cands != [] {
      assert cands[0] in cands;
    }
  }

  // ---------------------------------------------------------------------------
  // The whole build

  /** The intersections after a (possibly aborted) run, and the error that aborted it. */
  datatype Progress = Progress(intersections: map<int, Intersection>, error: Option<BuildError>)

  /** `ints` with `conns` appended to intersection `f`'s inbound connections; nothing else changes. */
  function AddInbound(ints: map<int, Intersection>, f: int, conns: seq<Connection>): (ints': map<int, Intersection>)
    requires f in ints
    ensures ints'.Keys == ints.Keys
    ensures ints'[f].inboundConnections == ints[f].inboundConnections + conns
    ensures ints'[f] == ints[f].(inboundConnections := ints'[f].inboundConnections)
    ensures forall i :: i in ints && i != f ==> ints'[i] == ints[i]
  {
    ints[f := ints[f].(inboundConnections := ints[f].inboundConnections + conns)]
  }

  /** Appending nothing leaves every intersection as it was. */
  lemma AddInboundNothing(ints: map<int, Intersection>, f: int)
    requires f in ints
    ensures AddInbound(ints, f, []) == ints
  {
    assert forall i :: i in ints ==> AddInbound(ints, f, [])[i] == ints[i];
  }

  /** Appending to the same intersection twice appends the concatenation. */
  lemma AddInboundTwice(ints: map<int, Intersection>, f: int, first: seq<Connection>, second: seq<Connection>)
    requires f in ints
    ensures AddInbound(AddInbound(ints, f, first), f, second) == AddInbound(ints, f, first + second)
  {
    var lhs := AddInbound(AddInbound(ints, f, first), f, second);
    var rhs := AddInbound(ints, f, first + second);
    assert ints[f].inboundConnections + first + second == ints[f].inboundConnections + (first + second);
    assert forall i :: i in lhs ==> lhs[i] == rhs[i];
  }

  /**
   * Processes the roads `done` in turn: each either aborts the run with its
   * error or appends its connections to its finish intersection. After an
   * error nothing more happens.
   */
  function Run(roads: map<int, Road>, order: seq<int>, ints: map<int, Intersection>, done: seq<int>): (p: Progress)
    requires Keyed(roads, order) && Keyed(roads, done) && EndpointsResolve(roads, ints)
    ensures p.intersections.Keys == ints.Keys
    decreases |done|
  {
    if done == [] then Progress(ints, None)
    else
      var prev := Run(roads, order, ints, done[..|done| - 1]);
      var r := done[|done| - 1];
      if prev.error.Some? then prev
      else match RoadError(roads, order, r)
        case Some(e) => Progress(prev.intersections, Some(e))
        case None => Progress(AddInbound(prev.intersections, roads[r].finishIntersection, RoadConnections(roads, order, r)), None)
  }

  /** One more road after a successful prefix either fails with its error or appends its connections. */
  lemma RunAppend(roads: map<int, Road>, order: seq<int>, ints: map<int, Intersection>, done: seq<int>, r: int)
    requires Keyed(roads, order) && Keyed(roads, done) && r in roads && EndpointsResolve(roads, ints)
    requires Run(roads, order, ints, done).error.None?
    ensures var prev := Run(roads, order, ints, done).intersections;
      Run(roads, order, ints, done + [r]) == match RoadError(roads, order, r)
        case Some(e) => Progress(prev, Some(e))
        case None => Progress(AddInbound(prev, roads[r].finishIntersection, RoadConnections(roads, order, r)), None)
  {
    assert (done + [r])[..|done|] == done;
  }

  /** The run changes only inbound connection lists: ids, coordinates and hit boxes stay. */
  lemma {:induction false} RunKeepsPlacement(roads: map<int, Road>, order: seq<int>, ints: map<int, Intersection>, done: seq<int>, i: int)
    requires Keyed(roads, order) && Keyed(roads, done) && EndpointsResolve(roads, ints)
    requires i in ints
    ensures var after := Run(roads, order, ints, done).intersections[i];
      after == ints[i].(inboundConnections := after.inboundConnections)
    decreases |done|
  {
    if done != [] {
      RunKeepsPlacement(roads, order, ints, done[..|done| - 1], i);
    }
  }

  /** Once a prefix of the run has failed, the rest of the run changes nothing. */
  lemma {:induction false} RunStopsAtError(roads: map<int, Road>, order: seq<int>, ints: map<int, Intersection>, done: seq<int>, j: nat)
    requires Keyed(roads, order) && Keyed(roads, done) && EndpointsResolve(roads, ints)
    requires j <= |done| && Run(roads, order, ints, done[..j]).error.Some?
    ensures Run(roads, order, ints, done) == Run(roads, order, ints, done[..j])
    decreases |done|
  {
    if j == |done| {
      assert done[..j] == done;
    } else {
      var init := done[..|done| - 1];
      assert init[..j] == done[..j];
      RunStopsAtError(roads, order, ints, init, j);
    }
  }

  /** The run succeeds exactly when none of its roads is a dead end. */
  lemma {:induction false} RunSucceedsIff(roads: map<int, Road>, order: seq<int>, ints: map<int, Intersection>, done: seq<int>)
    requires Keyed(roads, order) && Keyed(roads, done) && EndpointsResolve(roads, ints)
    ensures Run(roads, order, ints, done).error.None? <==> forall r :: r in done ==> RoadError(roads, order, r).None?
    decreases |done|
  {
    if done != [] {
      var init := done[..|done| - 1];
      RunSucceedsIff(roads, order, ints, init);
      assert forall r :: r in done <==> r in init || r == done[|done| - 1];
    }
  }

  /** A failed run reports the error of one of its dead-end roads. */
  lemma {:induction false} RunErrorNamesDeadEnd(roads: map<int, Road>, order: seq<int>, ints: map<int, Intersection>, done: seq<int>)
    requires Keyed(roads, order) && Keyed(roads, done) && EndpointsResolve(roads, ints)
    ensures var err := Run(roads, order, ints, done).error;
      err.Some? ==> (err.value.UnconnectableRoad? || err.value.IncompatibleRoad?)
                    && err.value.road in done && RoadError(roads, order, err.value.road) == err
    decreases |done|
  {
    if done != [] {
      var init := done[..|done| - 1];
      RunErrorNamesDeadEnd(roads, order, ints, init);
      RoadErrorIff(roads, order, done[|done| - 1]);
    }
  }

  /**
   * After a successful run, intersection `i` holds its original connections
   * and, for each road of the run finishing at `i`, that road's connections.
   */
  lemma {:induction false} RunInbound(roads: map<int, Road>, order: seq<int>, ints: map<int, Intersection>, done: seq<int>, i: int, conn: Connection)
    requires Keyed(roads, order) && Keyed(roads, done) && EndpointsResolve(roads, ints)
    requires i in ints && Run(roads, order, ints, done).error.None?
    ensures conn in Run(roads, order, ints, done).intersections[i].inboundConnections <==>
      || conn in ints[i].inboundConnections
      || (&& conn.connectedRoad in done
          && roads[conn.connectedRoad].finishIntersection == i
          && conn in RoadConnections(roads, order, conn.connectedRoad))
    decreases |done|
  {
    if done != [] {
      var init := done[..|done| - 1];
      var r := done[|done| - 1];
      assert Run(roads, order, ints, init).error.None?;
      RunInbound(roads, order, ints, init, i, conn);
      assert conn.connectedRoad in done <==> conn.connectedRoad in init || conn.connectedRoad == r;
    }
  }

  /** A run keeps every inbound connection at the finish intersection of its road. */
  lemma {:induction false} RunKeepsInboundAtFinish(roads: map<int, Road>, order: seq<int>, ints: map<int, Intersection>, done: seq<int>)
    requires Keyed(roads, order) && Keyed(roads, done) && EndpointsResolve(roads, ints)
    requires InboundAtFinish(roads, ints)
    ensures InboundAtFinish(roads, Run(roads, order, ints, done).intersections)
    decreases |done|
  {
    if done != [] {
      var init := done[..|done| - 1];
      RunKeepsInboundAtFinish(roads, order, ints, init);
    }
  }

  /** Starting from empty lists, every connection comes from a road of the run. */
  lemma {:induction false} RunConnectsOnlyDoneRoads(roads: map<int, Road>, order: seq<int>, ints: map<int, Intersection>, done: seq<int>, i: int, conn: Connection)
    requires Keyed(roads, order) && Keyed(roads, done) && EndpointsResolve(roads, ints)
    requires NoConnections(ints) && i in ints
    requires conn in Run(roads, order, ints, done).intersections[i].inboundConnections
    ensures conn.connectedRoad in done
    decreases |done|
  {
    if done != [] {
      var init := done[..|done| - 1];
      var r := done[|done| - 1];
      var prev := Run(roads, order, ints, init);
      if prev.error.None? && RoadError(roads, order, r).None? && i == roads[r].finishIntersection {
        var conns := RoadConnections(roads, order, r);
        assert Run(roads, order, ints, done).intersections[i].inboundConnections
            == prev.intersections[i].inboundConnections + conns;
        if conn !in conns {
          RunConnectsOnlyDoneRoads(roads, order, ints, init, i, conn);
        }
      } else {
        assert Run(roads, order, ints, done).intersections[i] == prev.intersections[i];
        RunConnectsOnlyDoneRoads(roads, order, ints, init, i, conn);
      }
    }
  }

  lemma DistinctAppend<T>(a: seq<T>, b: seq<T>)
    requires Distinct(a) && Distinct(b) && forall x :: x in a ==> x !in b
    ensures Distinct(a + b)
  {
    forall i, j | 0 <= i < j < |a + b| ensures (a + b)[i] != (a + b)[j] {
      if i < |a| && j >= |a| {
        assert (a + b)[i] in a && (a + b)[j] == b[j - |a|];
      }
    }
  }

  /** Starting from empty lists and a repetition-free run, no intersection gets the same connection twice. */
  lemma {:induction false} RunInboundDistinct(roads: map<int, Road>, order: seq<int>, ints: map<int, Intersection>, done: seq<int>, i: int)
    requires Keyed(roads, order) && Keyed(roads, done) && EndpointsResolve(roads, ints)
    requires NoConnections(ints) && Distinct(order) && Distinct(done) && i in ints
    ensures Distinct(Run(roads, order, ints, done).intersections[i].inboundConnections)
    decreases |done|
  {
    if done == [] {
      assert ints[i].inboundConnections == [];
    } else {
      var init := done[..|done| - 1];
      var r := done[|done| - 1];
      var prev := Run(roads, order, ints, init);
      RunInboundDistinct(roads, order, ints, init, i);
      if prev.error.None? && RoadError(roads, order, r).None? && i == roads[r].finishIntersection {
        var conns := RoadConnections(roads, order, r);
        var before := prev.intersections[i].inboundConnections;
        CandidatesDistinct(roads, order, roads[r]);
        LegalConnectionsDistinct(roads, r, Candidates(roads, order, roads[r]));
        forall x | x in before ensures x !in conns {
          RunConnectsOnlyDoneRoads(roads, order, ints, init, i, x);
          assert r !in init;
        }
        DistinctAppend(before, conns);
        assert Run(roads, order, ints, done).intersections[i].inboundConnections == before + conns;
      } else {
        assert Run(roads, order, ints, done).intersections[i] == prev.intersections[i];
      }
    }
  }

  // ---------------------------------------------------------------------------
  // Properties of the complete graph

  /** What the connection phase starts from: a parsed map with no connections yet. */
  predicate Parsed(roads: map<int, Road>, order: seq<int>, ints: map<int, Intersection>) {
    Enumerates(order, roads.Keys) && EndpointsResolve(roads, ints) && NoConnections(ints)
  }

  /**
   * After a successful build from a parsed map, intersection `i` holds exactly
   * one connection per legal pair (r, c) of roads with r finishing at `i`:
   * it is owned by r and carries a closed light towards c.
   */
  lemma BuiltGraphIsLegalPairs(roads: map<int, Road>, order: seq<int>, ints: map<int, Intersection>, i: int, conn: Connection)
    requires Parsed(roads, order, ints) && i in ints
    requires Run(roads, order, ints, order).error.None?
    ensures var inbound := Run(roads, order, ints, order).intersections[i].inboundConnections;
      && Distinct(inbound)
      && (conn in inbound <==>
            && conn == NewConnection(conn.connectedRoad, conn.trafficLight.destinationRoad)
            && conn.connectedRoad in roads
            && roads[conn.connectedRoad].finishIntersection == i
            && LegalPair(roads, conn.connectedRoad, conn.trafficLight.destinationRoad))
  {
    RunInbound(roads, order, ints, order, i, conn);
    RunInboundDistinct(roads, order, ints, order, i);
  }

  /** No connection of a built graph continues onto the reverse of its road. */
  lemma NoUTurnInBuiltGraph(roads: map<int, Road>, order: seq<int>, ints: map<int, Intersection>, i: int, conn: Connection)
    requires Parsed(roads, order, ints) && i in ints
    requires Run(roads, order, ints, order).error.None?
    requires conn in Run(roads, order, ints, order).intersections[i].inboundConnections
    ensures conn.connectedRoad in roads && conn.trafficLight.destinationRoad in roads
    ensures !IsUTurn(roads[conn.connectedRoad], roads[conn.trafficLight.destinationRoad])
    ensures roads[conn.trafficLight.destinationRoad].startIntersection == i
    ensures !conn.trafficLight.trafficAllowed
  {
    BuiltGraphIsLegalPairs(roads, order, ints, i, conn);
  }

  /** After a successful build every road has at least one connection, all at its finish intersection. */
  lemma EveryRoadConnected(roads: map<int, Road>, order: seq<int>, ints: map<int, Intersection>, r: int)
    requires Keyed(roads, order) && EndpointsResolve(roads, ints) && r in order
    requires Run(roads, order, ints, order).error.None?
    ensures RoadConnections(roads, order, r) != []
    ensures forall conn :: conn in RoadConnections(roads, order, r) ==>
      conn in Run(roads, order, ints, order).intersections[roads[r].finishIntersection].inboundConnections
  {
    RunSucceedsIff(roads, order, ints, order);
    RoadErrorIff(roads, order, r);
    var w :| w in order && LegalPair(roads, r, w);
    assert NewConnection(r, w) in RoadConnections(roads, order, r);
    forall conn | conn in RoadConnections(roads, order, r)
      ensures conn in Run(roads, order, ints, order).intersections[roads[r].finishIntersection].inboundConnections
    {
      RunInbound(roads, order, ints, order, roads[r].finishIntersection, conn);
    }
  }

  /** After a successful build from a parsed map, an intersection with a connection is some road's finish. */
  lemma ConnectedIsDestination(roads: map<int, Road>, order: seq<int>, ints: map<int, Intersection>, i: int)
    requires Parsed(roads, order, ints) && i in ints
    requires Run(roads, order, ints, order).error.None?
    requires |Run(roads, order, ints, order).intersections[i].inboundConnections| > 0
    ensures i in Destinations(roads)
  {
    var conn := Run(roads, order, ints, order).intersections[i].inboundConnections[0];
    RunInbound(roads, order, ints, order, i, conn);
    assert ints[i].inboundConnections == [];
    assert roads[conn.connectedRoad].finishIntersection == i;
  }

  /** After a successful build, a road's finish intersection has a connection. */
  lemma DestinationIsConnected(roads: map<int, Road>, order: seq<int>, ints: map<int, Intersection>, r: int)
    requires Keyed(roads, order) && EndpointsResolve(roads, ints) && r in order
    requires Run(roads, order, ints, order).error.None?
    ensures |Run(roads, order, ints, order).intersections[roads[r].finishIntersection].inboundConnections| > 0
  {
    EveryRoadConnected(roads, order, ints, r);
    var conns := RoadConnections(roads, order, r);
    assert conns[0] in conns;
  }

  /** The intersections some road finishes at. */
  function Destinations(roads: map<int, Road>): set<int> {
    set r | r in roads :: roads[r].finishIntersection
  }

  /** Every intersection is some road's finish. */
  predicate AllDestinations(roads: map<int, Road>, ints: map<int, Intersection>) {
    ints.Keys <= Destinations(roads)
  }

  lemma ReachableOnlyIfDestinations(roads: map<int, Road>, order: seq<int>, ints: map<int, Intersection>)
    requires Parsed(roads, order, ints)
    requires Run(roads, order, ints, order).error.None?
    requires AllReachable(Run(roads, order, ints, order).intersections)
    ensures AllDestinations(roads, ints)
  {
    forall i | i in ints ensures i in Destinations(roads) {
      ConnectedIsDestination(roads, order, ints, i);
    }
  }

  lemma DestinationHasConnection(roads: map<int, Road>, order: seq<int>, ints: map<int, Intersection>, i: int)
    requires Enumerates(order, roads.Keys) && EndpointsResolve(roads, ints) && i in ints
    requires Run(roads, order, ints, order).error.None?
    requires i in Destinations(roads)
    ensures |Run(roads, order, ints, order).intersections[i].inboundConnections| > 0
  {
    var r :| r in roads && roads[r].finishIntersection == i;
    DestinationIsConnected(roads, order, ints, r);
  }

  lemma ReachableIfDestinations(roads: map<int, Road>, order: seq<int>, ints: map<int, Intersection>)
    requires Parsed(roads, order, ints)
    requires Run(roads, order, ints, order).error.None?
    requires AllDestinations(roads, ints)
    ensures AllReachable(Run(roads, order, ints, order).intersections)
  {
    forall i | i in ints ensures |Run(roads, order, ints, order).intersections[i].inboundConnections| > 0 {
      DestinationHasConnection(roads, order, ints, i);
    }
  }

  /**
   * After a successful build from a parsed map, every intersection has an
   * inbound connection exactly when every intersection is some road's finish.
   */
  lemma ReachableIff(roads: map<int, Road>, order: seq<int>, ints: map<int, Intersection>)
    requires Parsed(roads, order, ints)
    requires Run(roads, order, ints, order).error.None?
    ensures AllReachable(Run(roads, order, ints, order).intersections) <==> AllDestinations(roads, ints)
  {
    if AllReachable(Run(roads, order, ints, order).intersections) {
      ReachableOnlyIfDestinations(roads, order, ints);
    }
    if AllDestinations(roads, ints) {
      ReachableIfDestinations(roads, order, ints);
    }
  }
}
