/**
 * Planet movement for the mass migration script: the move-type dispatch,
 * shifting and stretching planet positions in place over exact reals, and
 * the name-to-coordinates map written back afterwards.
 */
module Migration {
  import opened Wrappers
  import opened Galaxy

  /** A 2D vector: an offset, or the point of reference given as `(x, y)`. */
  datatype Vector = Vector(dx: real, dy: real)

  function Neg(v: Vector): (r: Vector)
    ensures r.dx + v.dx == 0.0 && r.dy + v.dy == 0.0
  {
    Vector(-v.dx, -v.dy)
  }

  /** `positionAsArray`: the current position of a planet. */
  function Position(planet: Planet): (r: Coords)
    reads planet
    ensures r.x == planet.x && r.y == planet.y
  {
    Coords(planet.x, planet.y)
  }

  /** A position shifted `k` times by `shift`: a planet listed `k` times is shifted once per listing. */
  function Shifted(c: Coords, shift: Vector, k: nat): Coords
  {
    Coords(c.x + (k as real) * shift.dx, c.y + (k as real) * shift.dy)
  }

  /** A position scaled once by `factor` with respect to (0, 0). */
  function Scaled(c: Coords, factor: real): Coords
  {
    Coords(factor * c.x, factor * c.y)
  }

  /** A position scaled `k` times by `factor` with respect to (0, 0). */
  function Stretched(c: Coords, factor: real, k: nat): Coords
  {
    if k == 0 then c else Scaled(Stretched(c, factor, k - 1), factor)
  }

  /** The actions `performActionInShiftedCoords` is given; rotation is not part of this model. */
  datatype ShiftedAction = StretchAction(factor: real)

  /** The effect of an action on a planet listed `k` times. */
  function Applied(action: ShiftedAction, c: Coords, k: nat): Coords
  {
    match action
    case StretchAction(factor) => Stretched(c, factor, k)
  }

  /** An action performed in coordinates whose origin is `origin`. */
  function InShiftedCoords(c: Coords, action: ShiftedAction, origin: Vector, k: nat): Coords
  {
    Shifted(Applied(action, Shifted(c, Neg(origin), k), k), origin, k)
  }

  /** Shifting `k` times by `-s` and then `k` times by `s` restores the position. */
  lemma ShiftUndone(c: Coords, s: Vector, k: nat)
    ensures Shifted(Shifted(c, Neg(s), k), s, k) == c
  {
  }

  /** One more shift adds the vector once more. */
  lemma ShiftedStep(c: Coords, s: Vector, k: nat)
    ensures Shifted(c, s, k + 1) == Coords(Shifted(c, s, k).x + s.dx, Shifted(c, s, k).y + s.dy)
  {
    assert ((k + 1) as real) * s.dx == (k as real) * s.dx + s.dx;
    assert ((k + 1) as real) * s.dy == (k as real) * s.dy + s.dy;
  }

  /** Scaling by 1 any number of times changes nothing. */
  lemma {:induction false} StretchedByOne(c: Coords, k: nat)
    ensures Stretched(c, 1.0, k) == c
  {
    if k > 0 {
      StretchedByOne(c, k - 1);
    }
  }

  /** A stretch by 1 in shifted coordinates restores every position, however often the planet is listed. */
  lemma IdentityStretchRestores(c: Coords, origin: Vector, k: nat)
    ensures InShiftedCoords(c, StretchAction(1.0), origin, k) == c
  {
    StretchedByOne(Shifted(c, Neg(origin), k), k);
    ShiftUndone(c, origin, k);
  }

  /** A planet listed once ends at origin + factor * (old - origin). */
  lemma StretchOnce(c: Coords, factor: real, origin: Vector)
    ensures InShiftedCoords(c, StretchAction(factor), origin, 1) ==
            Coords(origin.dx + factor * (c.x - origin.dx), origin.dy + factor * (c.y - origin.dy))
  {
    var shifted := Shifted(c, Neg(origin), 1);
    assert shifted == Coords(c.x - origin.dx, c.y - origin.dy);
    assert Stretched(shifted, factor, 1) == Scaled(shifted, factor);
  }

  /** The point of reference itself does not move. */
  lemma StretchFixesOrigin(factor: real, origin: Vector)
    ensures InShiftedCoords(Coords(origin.dx, origin.dy), StretchAction(factor), origin, 1) == Coords(origin.dx, origin.dy)
  {
    StretchOnce(Coords(origin.dx, origin.dy), factor, origin);
  }

  /** The listing of `planets[i]` is counted once more in `planets[..i + 1]` than in `planets[..i]`. */
  lemma CountStep(planets: seq<Planet>, i: nat)
    requires i < |planets|
    ensures multiset(planets[..i + 1]) == multiset(planets[..i]) + multiset{planets[i]}
  {
    assert planets[..i + 1] == planets[..i] + [planets[i]];
  }

  /** Moves one planet by `shift`. */
  method ShiftPlanet(planet: Planet, shift: Vector)
    modifies planet
    ensures Position(planet) == Coords(old(planet.x) + shift.dx, old(planet.y) + shift.dy)
  {
    planet.x, planet.y := planet.x + shift.dx, planet.y + shift.dy;
  }

  /**
   * `shiftCoords`: every listed planet moves by `shift`, once per listing;
   * no other planet is touched.
   */
  method ShiftCoords(planets: seq<Planet>, shift: Vector)
    modifies set p | p in planets
    ensures forall p :: p in planets ==> Position(p) == Shifted(old(Position(p)), shift, multiset(planets)[p])
  {
    for i := 0 to |planets|
      invariant forall p :: p in planets ==> Position(p) == Shifted(old(Position(p)), shift, multiset(planets[..i])[p])
    {
      CountStep(planets, i);
      forall p | p in planets
        ensures Shifted(old(Position(p)), shift, multiset(planets[..i + 1])[p]) ==
                if p == planets[i] then
                  Coords(Shifted(old(Position(p)), shift, multiset(planets[..i])[p]).x + shift.dx,
                         Shifted(old(Position(p)), shift, multiset(planets[..i])[p]).y + shift.dy)
                else Shifted(old(Position(p)), shift, multiset(planets[..i])[p])
      {
        if p == planets[i] {
          ShiftedStep(old(Position(p)), shift, multiset(planets[..i])[p]);
        }
      }
      ShiftPlanet(planets[i], shift);
    }
    assert planets[..|planets|] == planets;
  }

  /** Scales one planet's position by `factor`. */
  method StretchPlanet(planet: Planet, factor: real)
    modifies planet
    ensures Position(planet) == Scaled(old(Position(planet)), factor)
  {
    planet.x, planet.y := factor * planet.x, factor * planet.y;
  }

  /**
   * `stretchPlanetsWrtOrigin`: every listed planet's position is scaled by
   * `factor` with respect to (0, 0), once per listing.
   */
  method StretchPlanetsWrtOrigin(planets: seq<Planet>, factor: real)
    modifies set p | p in planets
    ensures forall p :: p in planets ==> Position(p) == Stretched(old(Position(p)), factor, multiset(planets)[p])
  {
    for i := 0 to |planets|
      invariant forall p :: p in planets ==> Position(p) == Stretched(old(Position(p)), factor, multiset(planets[..i])[p])
    {
      CountStep(planets, i);
      StretchPlanet(planets[i], factor);
    }
    assert planets[..|planets|] == planets;
  }

  /** Calling `action(planets)`. */
  method PerformAction(planets: seq<Planet>, action: ShiftedAction)
    modifies set p | p in planets
    ensures forall p :: p in planets ==> Position(p) == Applied(action, old(Position(p)), multiset(planets)[p])
  {
    match action
    case StretchAction(factor) =>
      StretchPlanetsWrtOrigin(planets, factor);
  }

  /**
   * `performActionInShiftedCoords`: shift by `-altOrigin`, perform the
   * action, shift back by `altOrigin`.
   */
  method PerformActionInShiftedCoords(planets: seq<Planet>, action: ShiftedAction, altOrigin: Vector := Vector(0.0, 0.0))
    modifies set p | p in planets
    ensures forall p :: p in planets ==> Position(p) == InShiftedCoords(old(Position(p)), action, altOrigin, multiset(planets)[p])
  {
    var shift := Neg(altOrigin);
    ShiftCoords(planets, shift);
    PerformAction(planets, action);
    assert Neg(shift) == altOrigin;
    ShiftCoords(planets, Neg(shift));
  }

  /** `stretchPlanetPositions`: every listed planet's distance to `origin` is scaled by `factor`. */
  method StretchPlanetPositions(planets: seq<Planet>, factor: real, origin: Vector := Vector(0.0, 0.0))
    modifies set p | p in planets
    ensures forall p :: p in planets ==> Position(p) == InShiftedCoords(old(Position(p)), StretchAction(factor), origin, multiset(planets)[p])
  {
    PerformActionInShiftedCoords(planets, StretchAction(factor), origin);
  }

  /** The movement configuration globals of the script. */
  datatype MovementConfig = MovementConfig(
    selectedMoveType: string,
    offset: Vector,
    stretchFactor: real,
    rotationAngle: real,
    pointOfReference: Vector)

  /** The configuration the script ships with. */
  function DefaultMovementConfig(): MovementConfig
  {
    MovementConfig("offset", Vector(100.0, 100.0), 0.1, 40.0, Vector(-400.0, 0.0))
  }

  /** The movements of the `moveTypeActions` table, with the parameters they are called with. */
  datatype Movement =
    | MovementShift(offset: Vector)
    | MovementStretch(factor: real, origin: Vector)
    | MovementRotation(degrees: real, center: Vector)

  /** `getMovementAction`: the movement for the selected move type; any other name is a KeyError. */
  function GetMovementAction(cfg: MovementConfig): (r: Result<Movement>)
    ensures r.Failure? <==> cfg.selectedMoveType !in {"offset", "stretch", "rotation"}
    ensures r.Failure? ==> r.error == KeyError(cfg.selectedMoveType)
    ensures cfg.selectedMoveType == "offset" ==> r == Success(MovementShift(cfg.offset))
    ensures cfg.selectedMoveType == "stretch" ==> r == Success(MovementStretch(cfg.stretchFactor, cfg.pointOfReference))
    ensures cfg.selectedMoveType == "rotation" ==> r == Success(MovementRotation(cfg.rotationAngle, cfg.pointOfReference))
  {
    match cfg.selectedMoveType
    case "offset" => Success(MovementShift(cfg.offset))
    case "stretch" => Success(MovementStretch(cfg.stretchFactor, cfg.pointOfReference))
    case "rotation" => Success(MovementRotation(cfg.rotationAngle, cfg.pointOfReference))
    case _ => Failure(KeyError(cfg.selectedMoveType))
  }

  /**
   * Calling the shift or stretch movement on the planets; rotation is not
   * part of this model.
   */
  method PerformMovement(planets: seq<Planet>, movement: Movement)
    requires !movement.MovementRotation?
    modifies set p | p in planets
    ensures movement.MovementShift? ==>
              forall p :: p in planets ==> Position(p) == Shifted(old(Position(p)), movement.offset, multiset(planets)[p])
    ensures movement.MovementStretch? ==>
              forall p :: p in planets ==>
                Position(p) == InShiftedCoords(old(Position(p)), StretchAction(movement.factor), movement.origin, multiset(planets)[p])
  {
    match movement
    case MovementShift(offset) =>
      ShiftCoords(planets, offset);
    case MovementStretch(factor, origin) =>
      StretchPlanetPositions(planets, factor, origin);
  }

  /**
   * `performPlanetsMovement`: look the movement up, then perform it; an
   * unknown move type is a KeyError raised before any planet moves.
   */
  method PerformPlanetsMovement(planets: seq<Planet>, cfg: MovementConfig) returns (r: Result<Movement>)
    requires cfg.selectedMoveType != "rotation"
    modifies set p | p in planets
    ensures r == GetMovementAction(cfg)
    ensures r.Failure? ==> forall p :: p in planets ==> Position(p) == old(Position(p))
    ensures cfg.selectedMoveType == "offset" ==>
              forall p :: p in planets ==> Position(p) == Shifted(old(Position(p)), cfg.offset, multiset(planets)[p])
    ensures cfg.selectedMoveType == "stretch" ==>
              forall p :: p in planets ==>
                Position(p) == InShiftedCoords(old(Position(p)), StretchAction(cfg.stretchFactor), cfg.pointOfReference, multiset(planets)[p])
  {
    r := GetMovementAction(cfg);
    if r.Success? {
      PerformMovement(planets, r.value);
    }
  }

  /** The shipped configuration shifts the selected planets by (100, 100). */
  lemma DefaultMovementIsShift()
    ensures GetMovementAction(DefaultMovementConfig()) == Success(MovementShift(Vector(100.0, 100.0)))
  {
  }

  /** The coordinate map of the planets, later listings overwriting earlier ones. */
  function CoordsByName(planets: seq<Planet>): (m: map<string, Coords>)
    reads set p | p in planets
  {
    if planets == [] then map[]
    else
      var n := |planets| - 1;
      CoordsByName(planets[..n])[planets[n].name := Position(planets[n])]
  }

  /** The keys are exactly the names of the listed planets. */
  lemma {:induction false} CoordsByNameKeys(planets: seq<Planet>, name: string)
    ensures name in CoordsByName(planets) <==> exists i :: 0 <= i < |planets| && planets[i].name == name
  {
    if planets != [] {
      var n := |planets| - 1;
      CoordsByNameKeys(planets[..n], name);
      if i :| 0 <= i < n && planets[..n][i].name == name {
        assert planets[i] == planets[..n][i];
      }
      if i :| 0 <= i < n && planets[i].name == name {
        assert planets[..n][i] == planets[i];
      }
    }
  }

  /** The value of a name is the position of the last planet listed with that name. */
  lemma {:induction false} CoordsByNameLastWins(planets: seq<Planet>, i: nat)
    requires i < |planets|
    requires forall j :: i < j < |planets| ==> planets[j].name != planets[i].name
    ensures planets[i].name in CoordsByName(planets)
    ensures CoordsByName(planets)[planets[i].name] == Position(planets[i])
  {
    var n := |planets| - 1;
    if i < n {
      assert forall j :: i < j < n ==> planets[..n][j] == planets[j];
      CoordsByNameLastWins(planets[..n], i);
    }
  }

  /** `getPlanetCoordsByNameDict`: the map from planet name to `[x, y]` the XML writer receives. */
  method GetPlanetCoordsByNameDict(planets: seq<Planet>) returns (coordsByName: map<string, Coords>)
    ensures coordsByName == CoordsByName(planets)
  {
    coordsByName := map[];
    for i := 0 to |planets|
      invariant coordsByName == CoordsByName(planets[..i])
    {
      assert planets[..i + 1][..i] == planets[..i];
      var planet := planets[i];
      coordsByName := coordsByName[planet.name := Coords(planet.x, planet.y)];
    }
    assert planets[..|planets|] == planets;
  }
}
