/**
 * Entities of the road network: grid coordinates, orientations, roads,
 * intersections, connections and traffic lights.
 *
 * Roads and intersections live in the maps of a road-map description and
 * refer to each other by integer id (an arena) instead of by shared
 * reference. Connections and traffic lights are never changed after the
 * builder creates them, so they are values. A `Coordinates` object is
 * updated in place by its setters, so it stays a class.
 */
module RoadMap {

  datatype Option<T> = None | Some(value: T)

  /** Direction a road travels from its start intersection to its finish intersection. */
  datatype Orientation = UP | DOWN | LEFT | RIGHT

  /** A point in layout (pixel) space. */
  datatype Point = Point(x: int, y: int)

  /** A closed polygon given by its corners' x and y coordinates, in drawing order. */
  datatype Polygon = Polygon(xPoints: seq<int>, yPoints: seq<int>)

  /** A gate that, once open, lets traffic proceed onto `destinationRoad`. */
  datatype TrafficLight = TrafficLight(trafficAllowed: bool, destinationRoad: int)

  /** An inbound connection of an intersection: road `connectedRoad` arrives there. */
  datatype Connection = Connection(connectedRoad: int, trafficLight: TrafficLight)

  /** A directed road between two intersections, given by their ids. */
  datatype Road = Road(
    startIntersection: int,
    finishIntersection: int,
    roadOrientation: Orientation,
    isSingleDirection: bool,
    hitBox: Option<Polygon>)

  /** A node of the road graph, placed at `coordinates`. */
  datatype Intersection = Intersection(
    intersectionId: int,
    coordinates: Coordinates,
    inboundConnections: seq<Connection>,
    hitBox: Option<Polygon>)

  /** A mutable pair of integers; (-1, -1) means "not placed". */
  class Coordinates {
    var xCoord: int
    var yCoord: int

    /** The "not placed" sentinel. */
    constructor Unplaced()
      ensures xCoord == -1 && yCoord == -1
    {
      xCoord, yCoord := -1, -1;
    }

    constructor (xCoord: int, yCoord: int)
      ensures this.xCoord == xCoord && this.yCoord == yCoord
    {
      this.xCoord := xCoord;
      this.yCoord := yCoord;
    }

    method GetXCoord() returns (x: int)
      ensures x == xCoord
    {
      x := xCoord;
    }

    method SetXCoord(x: int)
      modifies this`xCoord
      ensures xCoord == x && yCoord == old(yCoord)
    {
      xCoord := x;
    }

    method GetYCoord() returns (y: int)
      ensures y == yCoord
    {
      y := yCoord;
    }

    method SetYCoord(y: int)
      modifies this`yCoord
      ensures yCoord == y && xCoord == old(xCoord)
    {
      yCoord := y;
    }
  }
}
