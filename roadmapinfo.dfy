/**
 * The road-map description the parser produces and the builder completes:
 * the roads and intersections, indexed by id, and the map's size in grid cells.
 */
module Parser {
  import opened RoadMap

  class RoadMapInfo {
    var mapWidth: int
    var mapHeight: int
    // Simulation settings; the builder never reads them.
    var defaultSpeed: int
    var defaultRoadCapacity: int
    var defaultNumberCars: int
    var roads: map<int, Road>
    var intersections: map<int, Intersection>

    /** An empty description; every integer setting starts at Java's default 0. */
    constructor ()
      ensures roads == map[] && intersections == map[]
      ensures mapWidth == 0 && mapHeight == 0
      ensures defaultSpeed == 0 && defaultRoadCapacity == 0 && defaultNumberCars == 0
    {
      roads := map[];
      intersections := map[];
      mapWidth, mapHeight := 0, 0;
      defaultSpeed, defaultRoadCapacity, defaultNumberCars := 0, 0, 0;
    }

    method GetRoads() returns (r: map<int, Road>)
      ensures r == roads
    {
      r := roads;
    }

    method SetRoads(roads: map<int, Road>)
      modifies this`roads
      ensures this.roads == roads
      ensures intersections == old(intersections)
      ensures mapWidth == old(mapWidth) && mapHeight == old(mapHeight)
    {
      this.roads := roads;
    }

    method GetIntersections() returns (r: map<int, Intersection>)
      ensures r == intersections
    {
      r := intersections;
    }

    method SetIntersections(intersections: map<int, Intersection>)
      modifies this`intersections
      ensures this.intersections == intersections
      ensures roads == old(roads)
      ensures mapWidth == old(mapWidth) && mapHeight == old(mapHeight)
    {
      this.intersections := intersections;
    }

    method GetMapWidth() returns (w: int)
      ensures w == mapWidth
    {
      w := mapWidth;
    }

    method SetMapWidth(w: int)
      modifies this`mapWidth
      ensures mapWidth == w
      ensures mapHeight == old(mapHeight)
      ensures roads == old(roads) && intersections == old(intersections)
    {
      mapWidth := w;
    }

    method GetMapHeight() returns (h: int)
      ensures h == mapHeight
    {
      h := mapHeight;
    }

    method SetMapHeight(h: int)
      modifies this`mapHeight
      ensures mapHeight == h
      ensures mapWidth == old(mapWidth)
      ensures roads == old(roads) && intersections == old(intersections)
    {
      mapHeight := h;
    }
  }
}
