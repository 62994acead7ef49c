/**
 * Small road maps run through the connection build, one per outcome: a
 * turning ring that connects, an isolated road, a head-on pair that is only
 * a U-turn, and a ring with a feeder road nobody reaches.
 */
module Scenarios {
  import opened RoadMap
  import opened Connections

  function Node(id: int, c: Coordinates): Intersection {
    Intersection(id, c, [], None)
  }

  function OneWay(start: int, finish: int, o: Orientation): Road {
    Road(start, finish, o, true, None)
  }

  /** Four roads turning DOWN, LEFT, UP, RIGHT around four intersections. */
  function Ring(): map<int, Road> {
    map[1 := OneWay(1, 2, DOWN), 2 := OneWay(2, 3, LEFT), 3 := OneWay(3, 4, UP), 4 := OneWay(4, 1, RIGHT)]
  }

  /** Every road of the ring, and of the ring with a feeder into it, has a legal successor. */
  lemma RingRoadsAreFine(roads: map<int, Road>, order: seq<int>)
    requires roads == Ring() || roads == Ring()[5 := OneWay(5, 1, RIGHT)]
    requires Enumerates(order, roads.Keys)
    ensures forall r :: r in order ==> RoadError(roads, order, r).None?
  {
    forall r | r in order ensures RoadError(roads, order, r).None? {
      RoadErrorIff(roads, order, r);
      var next := if r == 4 || r == 5 then 1 else r + 1;
      assert LegalPair(roads, r, next);
    }
  }

  /** Road `r` starts at intersection `r` and leads to the next one; the feeder leads to intersection 1. */
  lemma RingFinishes(roads: map<int, Road>)
    requires roads == Ring() || roads == Ring()[5 := OneWay(5, 1, RIGHT)]
    ensures forall r :: r in roads ==> roads[r].startIntersection == r
    ensures forall r :: r in roads ==> roads[r].finishIntersection == if r == 4 || r == 5 then 1 else r + 1
  {
    forall r | r in roads
      ensures roads[r].startIntersection == r
      ensures roads[r].finishIntersection == if r == 4 || r == 5 then 1 else r + 1
    {
      assert r in {1, 2, 3, 4, 5};
    }
  }

  /** The ring, with or without the feeder, over intersections 1 to 5, is a freshly parsed map. */
  lemma RingIsParsed(roads: map<int, Road>, order: seq<int>, ints: map<int, Intersection>)
    requires roads == Ring() || roads == Ring()[5 := OneWay(5, 1, RIGHT)]
    requires Enumerates(order, roads.Keys)
    requires ints.Keys == (if 5 in roads then {1, 2, 3, 4, 5} else {1, 2, 3, 4}) && NoConnections(ints)
    ensures Parsed(roads, order, ints)
    ensures Run(roads, order, ints, order).error == None
  {
    assert EndpointsResolve(roads, ints);
    RingRoadsAreFine(roads, order);
    RunSucceedsIff(roads, order, ints, order);
  }

  /** The ring road finishing at intersection `i`. */
  function RingPredecessor(i: int): int {
    if i == 1 then 4 else i - 1
  }

  /** A repetition-free sequence whose only member is `a` is `[a]`. */
  lemma DistinctSingleton<T>(s: seq<T>, a: T)
    requires Distinct(s) && forall x :: x in s <==> x == a
    ensures s == [a]
  {
    assert a in s;
    forall j | 0 <= j < |s| ensures s[j] == a {
      assert s[j] in s;
    }
    DistinctHead(s);
  }

  lemma DistinctHead<T>(s: seq<T>)
    requires Distinct(s)
    ensures |s| > 1 ==> s[0] != s[1]
  {
  }

  /**
   * Every road of the ring legally follows the previous one, so whatever
   * order the roads are visited in, the build succeeds, and each
   * intersection ends with exactly one connection: from the road arriving
   * there onto the road leaving it.
   */
  lemma RingConnects(roads: map<int, Road>, order: seq<int>, ints: map<int, Intersection>)
    requires roads == Ring() && Enumerates(order, roads.Keys)
    requires ints.Keys == {1, 2, 3, 4} && NoConnections(ints)
    ensures var run := Run(roads, order, ints, order);
      && run.error == None && AllReachable(run.intersections)
      && forall i :: i in ints ==> run.intersections[i].inboundConnections == [NewConnection(RingPredecessor(i), i)]
  {
    RingIsParsed(roads, order, ints);
    RingFinishes(roads);
    var after := Run(roads, order, ints, order).intersections;
    forall i | i in ints ensures after[i].inboundConnections == [NewConnection(RingPredecessor(i), i)] {
      var a := NewConnection(RingPredecessor(i), i);
      assert LegalPair(roads, RingPredecessor(i), i);
      forall conn ensures conn in after[i].inboundConnections <==> conn == a {
        BuiltGraphIsLegalPairs(roads, order, ints, i, conn);
      }
      BuiltGraphIsLegalPairs(roads, order, ints, i, a);
      DistinctSingleton(after[i].inboundConnections, a);
    }
    assert forall i :: i in ints ==> |after[i].inboundConnections| > 0;
  }

  /** A road whose finish intersection starts no other road is unconnectable. */
  lemma IsolatedRoadIsUnconnectable(c1: Coordinates, c2: Coordinates)
    ensures var ints := map[1 := Node(1, c1), 2 := Node(2, c2)];
      Run(map[1 := OneWay(1, 2, DOWN)], [1], ints, [1]).error == Some(UnconnectableRoad(1))
  {
  }

  /** Two roads meeting head-on are each other's U-turn, so neither is a candidate of the other. */
  lemma HeadOnPairIsUnconnectable(c1: Coordinates, c2: Coordinates)
    ensures var ints := map[1 := Node(1, c1), 2 := Node(2, c2)];
      var roads := map[1 := OneWay(1, 2, DOWN), 2 := OneWay(2, 1, UP)];
      Run(roads, [1, 2], ints, [1, 2]).error == Some(UnconnectableRoad(1))
  {
  }

  /** A feeder road into the ring connects, but its own start intersection is never reached. */
  lemma FeederStartIsUnreachable(roads: map<int, Road>, order: seq<int>, ints: map<int, Intersection>)
    requires roads == Ring()[5 := OneWay(5, 1, RIGHT)] && Enumerates(order, roads.Keys)
    requires ints.Keys == {1, 2, 3, 4, 5} && NoConnections(ints)
    ensures var run := Run(roads, order, ints, order);
      run.error == None && !AllReachable(run.intersections)
  {
    RingIsParsed(roads, order, ints);
    RingFinishes(roads);
    assert !AllDestinations(roads, ints) by {
      assert 5 in ints && 5 !in Destinations(roads);
    }
    ReachableIff(roads, order, ints);
  }
}
