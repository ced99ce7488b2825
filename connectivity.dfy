/**
 * The neighbour lists of the Lua export: trade-route partners first, then
 * every other planet closer than the auto-connection distance.
 */
module Connectivity {
  import opened Galaxy

  /** The exporter's configuration globals. */
  datatype ExportConfig = ExportConfig(
    campaignAliases: map<string, string>,  // campaign name -> name of its Lua table
    autoConnectionDistance: real,          // the maximum fleet movement distance
    ignore: seq<string>)                   // pseudo planets such as the galaxy core art model

  /** The values the exporter ships with. */
  function DefaultExportConfig(): ExportConfig
  {
    ExportConfig(
      map["Sandbox_Gateways_Underworld" := "Gateways",
          "Sandbox_Equal_Footing_Underworld" := "Equal_Footing"],
      100.0,
      ["Galaxy_Core_Art_Model"])
  }

  /** The square of the Euclidean distance between two planets. */
  function SquaredDistance(p: Planet, q: Planet): (r: real)
    reads p, q
    ensures 0.0 <= r
    ensures p == q ==> r == 0.0
  {
    (p.x - q.x) * (p.x - q.x) + (p.y - q.y) * (p.y - q.y)
  }

  /** `distance(p, q) < d`, decided without the square root. */
  predicate WithinReach(p: Planet, q: Planet, d: real)
    reads p, q
    ensures WithinReach(p, q, d) ==> 0.0 < d
    ensures p == q ==> (WithinReach(p, q, d) <==> 0.0 < d)
  {
    0.0 < d && (SquareMonotone(0.0, d); SquaredDistance(p, q) < d * d)
  }

  /**
   * The square-root-free test agrees with comparing the Euclidean distance
   * itself (the non-negative r with r * r equal to the squared distance),
   * for every threshold, negative ones included.
   */
  lemma WithinReachIsDistanceBelow(p: Planet, q: Planet, d: real, r: real)
    requires 0.0 <= r && r * r == SquaredDistance(p, q)
    ensures WithinReach(p, q, d) <==> r < d
  {
    if 0.0 < d {
      SquareMonotone(r, d);
    }
  }

  lemma SquareMonotone(r: real, d: real)
    requires 0.0 <= r && 0.0 < d
    ensures r < d <==> r * r < d * d
  {
    if r < d {
      calc {
        r * r;
      <= { MulMonotone(r, r, d); }
        r * d;
      <
        d * d;
      }
    } else {
      MulMonotone(d, d, r);
      MulMonotone(r, d, r);
    }
  }

  lemma MulMonotone(a: real, b: real, c: real)
    requires 0.0 <= a && b <= c
    ensures a * b <= a * c
  {
  }

  /** The neighbour a trade route gives `planet`, if the route touches it. */
  function Partner(planet: Planet, tr: TradeRoute): seq<string>
  {
    if tr.start == planet then [tr.end.name]
    else if tr.end == planet then [tr.start.name]
    else []
  }

  /** The partners of `planet` along the routes, in route order, repeats kept. */
  function RouteNames(planet: Planet, routes: seq<TradeRoute>): seq<string>
  {
    if routes == [] then []
    else RouteNames(planet, routes[..|routes| - 1]) + Partner(planet, routes[|routes| - 1])
  }

  /** Whether the auto pass for `planet` accepts `p`, as a list of zero or one planet. */
  function Accepted(planet: Planet, p: Planet, cfg: ExportConfig): seq<Planet>
    reads planet, p
  {
    if p != planet && p.name !in cfg.ignore && WithinReach(p, planet, cfg.autoConnectionDistance) then [p] else []
  }

  /** The planets the auto pass would connect: not `planet` itself, not ignored, strictly closer than the threshold. */
  function AutoCandidates(planet: Planet, planets: seq<Planet>, cfg: ExportConfig): seq<Planet>
    reads planet, planets
  {
    if planets == [] then []
    else
      var p := planets[|planets| - 1];
      AutoCandidates(planet, planets[..|planets| - 1], cfg) + Accepted(planet, p, cfg)
  }

  function Names(ps: seq<Planet>): (r: seq<string>)
    ensures |r| == |ps|
    ensures forall k :: 0 <= k < |ps| ==> r[k] == ps[k].name
  {
    if ps == [] then [] else Names(ps[..|ps| - 1]) + [ps[|ps| - 1].name]
  }

  lemma NamesSnoc(ps: seq<Planet>, p: Planet)
    ensures Names(ps + [p]) == Names(ps) + [p.name]
  {
    assert (ps + [p])[..|ps|] == ps;
  }

  /** Appends `n` unless it is already there: `if n not in acc: acc.append(n)`. */
  function AddNew(acc: seq<string>, n: string): seq<string>
  {
    if n in acc then acc else acc + [n]
  }

  /** The values of `s` in order of first occurrence, each once. */
  function Dedup(s: seq<string>): seq<string>
  {
    if s == [] then [] else AddNew(Dedup(s[..|s| - 1]), s[|s| - 1])
  }

  predicate NoDuplicates(s: seq<string>)
  {
    forall i, j :: 0 <= i < j < |s| ==> s[i] != s[j]
  }

  /** The neighbour list `getConnections` computes. */
  function Connections(planet: Planet, planets: seq<Planet>, routes: seq<TradeRoute>, cfg: ExportConfig): seq<string>
    reads planet, planets
  {
    Dedup(RouteNames(planet, routes) + Names(AutoCandidates(planet, planets, cfg)))
  }

  /** One more route adds its partner, if any, at the end. */
  lemma RouteNamesStep(planet: Planet, routes: seq<TradeRoute>, i: nat)
    requires i < |routes|
    ensures RouteNames(planet, routes[..i + 1]) == RouteNames(planet, routes[..i]) + Partner(planet, routes[i])
  {
    assert routes[..i + 1][..i] == routes[..i];
  }

  /** One more planet adds itself at the end when the auto pass accepts it. */
  lemma AutoCandidatesStep(planet: Planet, planets: seq<Planet>, cfg: ExportConfig, j: nat)
    requires j < |planets|
    ensures AutoCandidates(planet, planets[..j + 1], cfg) ==
            AutoCandidates(planet, planets[..j], cfg) + Accepted(planet, planets[j], cfg)
  {
    assert planets[..j + 1][..j] == planets[..j];
  }

  lemma DedupSnoc(s: seq<string>, n: string)
    ensures Dedup(s + [n]) == AddNew(Dedup(s), n)
  {
    assert (s + [n])[..|s|] == s;
  }

  lemma {:induction false} DedupNoDuplicates(s: seq<string>)
    ensures NoDuplicates(Dedup(s))
  {
    if s != [] {
      DedupNoDuplicates(s[..|s| - 1]);
    }
  }

  lemma {:induction false} DedupMembership(s: seq<string>, n: string)
    ensures n in Dedup(s) <==> n in s
  {
    if s != [] {
      var init := s[..|s| - 1];
      DedupMembership(init, n);
      assert s == init + [s[|s| - 1]];
    }
  }

  /** Deduplicating a longer sequence only appends to the deduplicated prefix. */
  lemma {:induction false} DedupPrefix(a: seq<string>, b: seq<string>)
    ensures |Dedup(a)| <= |Dedup(a + b)|
    ensures Dedup(a + b)[..|Dedup(a)|] == Dedup(a)
  {
    if b == [] {
      assert a + b == a;
    } else {
      var init := b[..|b| - 1];
      DedupPrefix(a, init);
      assert a + b == (a + init) + [b[|b| - 1]];
      DedupSnoc(a + init, b[|b| - 1]);
    }
  }

  lemma {:induction false} AutoCandidateIff(planet: Planet, planets: seq<Planet>, cfg: ExportConfig, p: Planet)
    ensures p in AutoCandidates(planet, planets, cfg) <==>
            p in planets && p != planet && p.name !in cfg.ignore &&
            WithinReach(p, planet, cfg.autoConnectionDistance)
  {
    if planets != [] {
      var init := planets[..|planets| - 1];
      AutoCandidateIff(planet, init, cfg, p);
      assert planets == init + [planets[|planets| - 1]];
    }
  }

  lemma {:induction false} RouteNamesIff(planet: Planet, routes: seq<TradeRoute>, n: string)
    ensures n in RouteNames(planet, routes) <==>
            exists k :: 0 <= k < |routes| && n in Partner(planet, routes[k])
  {
    if routes != [] {
      var init := routes[..|routes| - 1];
      RouteNamesIff(planet, init, n);
      if n in RouteNames(planet, init) {
        var k :| 0 <= k < |init| && n in Partner(planet, init[k]);
        assert routes[k] == init[k];
      }
      if exists k :: 0 <= k < |routes| && n in Partner(planet, routes[k]) {
        var k :| 0 <= k < |routes| && n in Partner(planet, routes[k]);
        if k < |init| {
          assert init[k] == routes[k];
        }
      }
    }
  }

  /** The neighbour list never names a planet twice. */
  lemma ConnectionsNoDuplicates(planet: Planet, planets: seq<Planet>, routes: seq<TradeRoute>, cfg: ExportConfig)
    ensures NoDuplicates(Connections(planet, planets, routes, cfg))
  {
    DedupNoDuplicates(RouteNames(planet, routes) + Names(AutoCandidates(planet, planets, cfg)));
  }

  /**
   * A name is a neighbour iff a trade route joins it to the planet (whether
   * or not it is ignored), or it names a planet other than this one, not
   * ignored, strictly closer than the threshold.
   */
  lemma ConnectionsMembership(planet: Planet, planets: seq<Planet>, routes: seq<TradeRoute>, cfg: ExportConfig, n: string)
    ensures n in Connections(planet, planets, routes, cfg) <==>
            (exists k :: 0 <= k < |routes| && n in Partner(planet, routes[k])) ||
            (exists p :: p in planets && p.name == n && p != planet && p.name !in cfg.ignore &&
                         WithinReach(p, planet, cfg.autoConnectionDistance))
  {
    var rn := RouteNames(planet, routes);
    var auto := AutoCandidates(planet, planets, cfg);
    DedupMembership(rn + Names(auto), n);
    RouteNamesIff(planet, routes, n);
    if n in Names(auto) {
      var k :| 0 <= k < |auto| && Names(auto)[k] == n;
      AutoCandidateIff(planet, planets, cfg, auto[k]);
    }
    if exists p :: p in planets && p.name == n && p != planet && p.name !in cfg.ignore &&
                   WithinReach(p, planet, cfg.autoConnectionDistance) {
      var p :| p in planets && p.name == n && p != planet && p.name !in cfg.ignore &&
               WithinReach(p, planet, cfg.autoConnectionDistance);
      AutoCandidateIff(planet, planets, cfg, p);
      var k :| 0 <= k < |auto| && auto[k] == p;
      assert Names(auto)[k] == n;
    }
  }

  /**
   * The list starts with the trade-route partners, each once, in route
   * order; auto-connected planets come after them.
   */
  lemma RoutePartnersFirst(planet: Planet, planets: seq<Planet>, routes: seq<TradeRoute>, cfg: ExportConfig)
    ensures var first := Dedup(RouteNames(planet, routes));
            |first| <= |Connections(planet, planets, routes, cfg)| &&
            Connections(planet, planets, routes, cfg)[..|first|] == first
  {
    DedupPrefix(RouteNames(planet, routes), Names(AutoCandidates(planet, planets, cfg)));
  }

  /**
   * A planet exactly at the threshold distance (or farther) is not
   * connected automatically: if no route joins it to the planet and its
   * name is its own, it is not a neighbour.
   */
  lemma FarPlanetNotConnected(planet: Planet, planets: seq<Planet>, routes: seq<TradeRoute>, cfg: ExportConfig, p: Planet)
    requires SquaredDistance(p, planet) >= cfg.autoConnectionDistance * cfg.autoConnectionDistance
    requires forall k :: 0 <= k < |routes| ==> p.name !in Partner(planet, routes[k])
    requires forall q :: q in planets && q.name == p.name ==> q == p
    ensures p.name !in Connections(planet, planets, routes, cfg)
  {
    ConnectionsMembership(planet, planets, routes, cfg, p.name);
  }

  /**
   * Three planets on a line at 0, 50 and 200 with threshold 100: without
   * routes A and B are joined and C is alone; a route A-C adds C to A's
   * list, ahead of B, and A to C's.
   */
  lemma ThreePlanetsExample(a: Planet, b: Planet, c: Planet, cfg: ExportConfig)
    requires a != b && b != c && a != c
    requires a.name != b.name && b.name != c.name && a.name != c.name
    requires a.name !in cfg.ignore && b.name !in cfg.ignore && c.name !in cfg.ignore
    requires a.x == 0.0 && a.y == 0.0 && b.x == 50.0 && b.y == 0.0 && c.x == 200.0 && c.y == 0.0
    requires cfg.autoConnectionDistance == 100.0
    ensures Connections(a, [a, b, c], [], cfg) == [b.name]
    ensures Connections(b, [a, b, c], [], cfg) == [a.name]
    ensures Connections(c, [a, b, c], [], cfg) == []
    ensures Connections(a, [a, b, c], [TradeRoute(a, c)], cfg) == [c.name, b.name]
    ensures Connections(c, [a, b, c], [TradeRoute(a, c)], cfg) == [a.name]
  {
    AutoOfThreeOnALine(a, b, c, cfg);
    RouteOfExample(a, c);
    DedupShort(c.name, b.name);
    DedupShort(b.name, a.name);
    assert Names([b]) == [b.name] && Names([a]) == [a.name];
    ConnectionsFromParts(a, [a, b, c], [], cfg, [], [b.name]);
    ConnectionsFromParts(b, [a, b, c], [], cfg, [], [a.name]);
    ConnectionsFromParts(c, [a, b, c], [], cfg, [], []);
    ConnectionsFromParts(a, [a, b, c], [TradeRoute(a, c)], cfg, [c.name], [b.name]);
    ConnectionsFromParts(c, [a, b, c], [TradeRoute(a, c)], cfg, [a.name], []);
  }

  lemma ConnectionsFromParts(planet: Planet, planets: seq<Planet>, routes: seq<TradeRoute>, cfg: ExportConfig,
                             routeNames: seq<string>, autoNames: seq<string>)
    requires RouteNames(planet, routes) == routeNames
    requires Names(AutoCandidates(planet, planets, cfg)) == autoNames
    ensures Connections(planet, planets, routes, cfg) == Dedup(routeNames + autoNames)
  {
  }

  /** The single route A-C gives A the partner C and C the partner A. */
  lemma RouteOfExample(a: Planet, c: Planet)
    requires a != c
    ensures RouteNames(a, []) == [] && RouteNames(c, []) == []
    ensures RouteNames(a, [TradeRoute(a, c)]) == [c.name]
    ensures RouteNames(c, [TradeRoute(a, c)]) == [a.name]
  {
    var route := [TradeRoute(a, c)];
    assert route[..0] == [];
  }

  lemma DedupShort(x: string, y: string)
    requires x != y
    ensures Dedup([]) == [] && Dedup([x]) == [x] && Dedup([x, y]) == [x, y]
  {
    DedupSnoc([], x);
    DedupSnoc([x], y);
    assert [x] + [y] == [x, y];
  }

  /** The same three planets under the shipped configuration, whose threshold is 100. */
  lemma ThreePlanetsShipped(a: Planet, b: Planet, c: Planet)
    requires a != b && b != c && a != c
    requires a.name != b.name && b.name != c.name && a.name != c.name
    requires a.name != "Galaxy_Core_Art_Model" && b.name != "Galaxy_Core_Art_Model" && c.name != "Galaxy_Core_Art_Model"
    requires a.x == 0.0 && a.y == 0.0 && b.x == 50.0 && b.y == 0.0 && c.x == 200.0 && c.y == 0.0
    ensures Connections(a, [a, b, c], [], DefaultExportConfig()) == [b.name]
    ensures Connections(c, [a, b, c], [], DefaultExportConfig()) == []
    ensures Connections(a, [a, b, c], [TradeRoute(a, c)], DefaultExportConfig()) == [c.name, b.name]
  {
    ThreePlanetsExample(a, b, c, DefaultExportConfig());
  }

  /** The auto pass on the three planets of the example: A and B reach each other, C reaches nobody. */
  lemma AutoOfThreeOnALine(a: Planet, b: Planet, c: Planet, cfg: ExportConfig)
    requires a != b && b != c && a != c
    requires a.name !in cfg.ignore && b.name !in cfg.ignore && c.name !in cfg.ignore
    requires a.x == 0.0 && a.y == 0.0 && b.x == 50.0 && b.y == 0.0 && c.x == 200.0 && c.y == 0.0
    requires cfg.autoConnectionDistance == 100.0
    ensures AutoCandidates(a, [a, b, c], cfg) == [b]
    ensures AutoCandidates(b, [a, b, c], cfg) == [a]
    ensures AutoCandidates(c, [a, b, c], cfg) == []
  {
    assert SquaredDistance(b, a) == 2500.0 && SquaredDistance(c, a) == 40000.0;
    assert SquaredDistance(a, b) == 2500.0 && SquaredDistance(c, b) == 22500.0;
    assert SquaredDistance(a, c) == 40000.0 && SquaredDistance(b, c) == 22500.0;
    assert Accepted(a, a, cfg) == [] && Accepted(a, b, cfg) == [b] && Accepted(a, c, cfg) == [];
    assert Accepted(b, a, cfg) == [a] && Accepted(b, b, cfg) == [] && Accepted(b, c, cfg) == [];
    assert Accepted(c, a, cfg) == [] && Accepted(c, b, cfg) == [] && Accepted(c, c, cfg) == [];
    AutoOfThree(a, a, b, c, cfg);
    AutoOfThree(b, a, b, c, cfg);
    AutoOfThree(c, a, b, c, cfg);
  }

  lemma AutoOfThree(planet: Planet, a: Planet, b: Planet, c: Planet, cfg: ExportConfig)
    ensures AutoCandidates(planet, [a, b, c], cfg) ==
            Accepted(planet, a, cfg) + Accepted(planet, b, cfg) + Accepted(planet, c, cfg)
  {
    var ps := [a, b, c];
    assert ps[..0] == [] && ps[..3] == ps;
    AutoCandidatesStep(planet, ps, cfg, 0);
    AutoCandidatesStep(planet, ps, cfg, 1);
    AutoCandidatesStep(planet, ps, cfg, 2);
  }

  /** One iteration of the route pass, on the deduplicated list. */
  lemma RoutePassStep(planet: Planet, routes: seq<TradeRoute>, i: nat)
    requires i < |routes|
    ensures var before := Dedup(RouteNames(planet, routes[..i]));
            Dedup(RouteNames(planet, routes[..i + 1])) ==
              if Partner(planet, routes[i]) == [] then before
              else AddNew(before, Partner(planet, routes[i])[0])
  {
    var names := RouteNames(planet, routes[..i]);
    RouteNamesStep(planet, routes, i);
    if Partner(planet, routes[i]) == [] {
      assert names + [] == names;
    } else {
      DedupSnoc(names, Partner(planet, routes[i])[0]);
    }
  }

  /** One iteration of the auto pass, on the deduplicated list. */
  lemma AutoPassStep(planet: Planet, planets: seq<Planet>, cfg: ExportConfig, routeNames: seq<string>, j: nat)
    requires j < |planets|
    ensures var before := Dedup(routeNames + Names(AutoCandidates(planet, planets[..j], cfg)));
            Dedup(routeNames + Names(AutoCandidates(planet, planets[..j + 1], cfg))) ==
              if Accepted(planet, planets[j], cfg) == [] then before
              else AddNew(before, planets[j].name)
  {
    var auto := AutoCandidates(planet, planets[..j], cfg);
    AutoCandidatesStep(planet, planets, cfg, j);
    if Accepted(planet, planets[j], cfg) == [] {
      assert auto + [] == auto;
    } else {
      NamesSnoc(auto, planets[j]);
      DedupSnoc(routeNames + Names(auto), planets[j].name);
      assert routeNames + Names(auto + [planets[j]]) == (routeNames + Names(auto)) + [planets[j].name];
    }
  }

  /** `getConnections`: the route pass, then the auto pass, each appending names not yet listed. */
  method GetConnections(planet: Planet, planets: seq<Planet>, tradeRoutes: seq<TradeRoute>, cfg: ExportConfig)
    returns (connections: seq<string>)
    ensures connections == Connections(planet, planets, tradeRoutes, cfg)
  {
    connections := [];
    for i := 0 to |tradeRoutes|
      invariant connections == Dedup(RouteNames(planet, tradeRoutes[..i]))
    {
      var tr := tradeRoutes[i];
      RoutePassStep(planet, tradeRoutes, i);
      if tr.start == planet && tr.end.name !in connections {
        connections := connections + [tr.end.name];
      } else if tr.end == planet && tr.start.name !in connections {
        connections := connections + [tr.start.name];
      }
    }
    assert tradeRoutes[..|tradeRoutes|] == tradeRoutes;
    ghost var routeNames := RouteNames(planet, tradeRoutes);
    assert routeNames + Names(AutoCandidates(planet, planets[..0], cfg)) == routeNames;
    for j := 0 to |planets|
      invariant connections == Dedup(routeNames + Names(AutoCandidates(planet, planets[..j], cfg)))
    {
      var p1 := planets[j];
      AutoPassStep(planet, planets, cfg, routeNames, j);
      if p1 != planet && p1.name !in cfg.ignore {
        if p1.name !in connections && WithinReach(p1, planet, cfg.autoConnectionDistance) {
          connections := connections + [p1.name];
        }
      }
    }
    assert planets[..|planets|] == planets;
  }
}
