/** The repository snapshot the add-on scripts work on. */
module Galaxy {

  /**
   * A planet of the galaxy map. Planets are compared by identity (the
   * scripts use `==`, `!=` and `in` on planet objects); the name and the
   * containing file are never changed by the scripts, the coordinates are.
   */
  class Planet {
    const name: string
    const containingFile: string
    var x: real
    var y: real

    constructor (name: string, containingFile: string, x: real, y: real)
      ensures this.name == name && this.containingFile == containingFile
      ensures this.x == x && this.y == y
    {
      this.name := name;
      this.containingFile := containingFile;
      this.x := x;
      this.y := y;
    }
  }

  /** A trade route between two planets of the same snapshot. */
  datatype TradeRoute = TradeRoute(start: Planet, end: Planet)

  /** A campaign: its name, its planets and its trade routes. */
  datatype Campaign = Campaign(name: string, planets: seq<Planet>, tradeRoutes: seq<TradeRoute>)

  /** What the repository loader hands to the scripts. */
  datatype Repository = Repository(planets: seq<Planet>, tradeRoutes: seq<TradeRoute>, campaigns: seq<Campaign>)

  /** A planet position `[x, y]` as stored in the coordinate map. */
  datatype Coords = Coords(x: real, y: real)
}
