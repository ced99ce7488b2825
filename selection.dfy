/**
 * Planet selection for the mass migration script: the per-criterion
 * predicates built by `buildSelectionCriteria`, their combination, and the
 * filtering done by `determineMigratingPlanets`.
 */
module Selection {
  import opened Wrappers
  import opened Galaxy
  import opened Quadrants

  /** A user-supplied `selectionFunction(planet, repository)`; it sees planets by identity. */
  type CustomSelection = (Planet, Repository) -> bool

  /** A user-edited `allowMigration(inCampaigns, inFiles, inQuadrant, inCustom)` formula. */
  type MigrationFormula = (bool, bool, bool, bool) -> bool

  /**
   * The script's configuration globals that take part in selection, and the
   * arguments `determineMigratingPlanets` passes to `buildSelectionCriteria`.
   */
  datatype SelectionConfig = SelectionConfig(
    useSelectionCriteria: seq<string>,
    campaigns: seq<string>,
    files: seq<string>,
    areas: seq<Quadrant>,
    selectionFunction: Option<CustomSelection>,
    allowMigration: MigrationFormula,
    ignore: seq<string>)

  /** The formula of the script's `allowMigration` as shipped: campaign and file, or quadrant. */
  predicate AllowMigration(inCampaigns: bool, inFiles: bool, inQuadrant: bool, inCustom: bool)
    ensures inQuadrant ==> AllowMigration(inCampaigns, inFiles, inQuadrant, inCustom)
    ensures !inQuadrant ==> (AllowMigration(inCampaigns, inFiles, inQuadrant, inCustom) <==> inCampaigns && inFiles)
  {
    (inCampaigns && inFiles) || inQuadrant
  }

  /** The configuration the script ships with. */
  function DefaultSelectionConfig(): SelectionConfig
  {
    SelectionConfig(
      ["campaigns"],
      ["Sandbox_Large_Stargate_Universe_Tauri"],
      ["Planets_Systemlord_Alliance.xml"],
      [Quadrant(300.0, 10000.0, -10000.0, -500.0)],
      Some((planet: Planet, repository: Repository) => true),
      (inCampaigns: bool, inFiles: bool, inQuadrant: bool, inCustom: bool) => AllowMigration(inCampaigns, inFiles, inQuadrant, inCustom),
      ["Galaxy_Core_Art_Model", "Pegasus_Prelude_Galaxy_Core_Art_Model"])
  }

  /** The criterion names the dispatch table of `buildSelectionCriteria` knows. */
  const KnownCriteria: set<string> := {"all", "campaigns", "files", "quadrants", "custom"}

  /** `selectByCampaign`: the search over the repository's campaigns for a selected one holding the planet. */
  function SelectByCampaign(planet: Planet, campaignList: seq<Campaign>, campaigns: seq<string>): (r: bool)
    ensures r <==> exists i :: 0 <= i < |campaignList| && campaignList[i].name in campaigns && planet in campaignList[i].planets
  {
    if campaignList == [] then false
    else if campaignList[0].name in campaigns && planet in campaignList[0].planets then true
    else SelectByCampaign(planet, campaignList[1..], campaigns)
  }

  /** `selectByFile`: the planet's file is one of the selected files. */
  predicate SelectByFile(planet: Planet, files: seq<string>)
    ensures SelectByFile(planet, files) <==> exists i :: 0 <= i < |files| && files[i] == planet.containingFile
  {
    planet.containingFile in files
  }

  /** `selectByQuadrant`: the planet's current position lies in the selected area. */
  predicate SelectByQuadrant(planet: Planet, area: QuadrantSuperposition)
    reads planet
    ensures SelectByQuadrant(planet, area) <==>
            exists i :: 0 <= i < |area.quadrants| && area.quadrants[i].Contains(planet.x, planet.y)
  {
    area.Contains(planet.x, planet.y)
  }

  /** `selectByCustomCriterion`: without a selection function every planet is selected. */
  predicate SelectByCustomCriterion(planet: Planet, repository: Repository, selectionFunction: Option<CustomSelection>)
    ensures selectionFunction.None? ==> SelectByCustomCriterion(planet, repository, selectionFunction)
    ensures selectionFunction.Some? ==>
            (SelectByCustomCriterion(planet, repository, selectionFunction) <==> selectionFunction.value(planet, repository))
  {
    match selectionFunction
    case None => true
    case Some(f) => f(planet, repository)
  }

  /** Looking a criterion up in `allowByCriterion` and calling it; an unknown name is a KeyError. */
  function Criterion(criterion: string, planet: Planet, repository: Repository, cfg: SelectionConfig): (r: Result<bool>)
    reads planet
    ensures r.Failure? <==> criterion !in KnownCriteria
    ensures r.Failure? ==> r.error == KeyError(criterion)
    ensures criterion == "all" ==> r == Success(true)
  {
    match criterion
    case "all" => Success(true)
    case "campaigns" => Success(SelectByCampaign(planet, repository.campaigns, cfg.campaigns))
    case "files" => Success(SelectByFile(planet, cfg.files))
    case "quadrants" => Success(SelectByQuadrant(planet, QuadrantSuperposition(cfg.areas)))
    case "custom" => Success(SelectByCustomCriterion(planet, repository, cfg.selectionFunction))
    case _ => Failure(KeyError(criterion))
  }

  /** What each known criterion decides. */
  lemma CriterionMeanings(planet: Planet, repository: Repository, cfg: SelectionConfig)
    ensures Criterion("all", planet, repository, cfg) == Success(true)
    ensures Criterion("files", planet, repository, cfg) == Success(planet.containingFile in cfg.files)
    ensures Criterion("quadrants", planet, repository, cfg) ==
            Success(exists i :: 0 <= i < |cfg.areas| && cfg.areas[i].Contains(planet.x, planet.y))
    ensures cfg.selectionFunction.None? ==> Criterion("custom", planet, repository, cfg) == Success(true)
    ensures Criterion("campaigns", planet, repository, cfg) ==
            Success(exists i :: 0 <= i < |repository.campaigns| && repository.campaigns[i].name in cfg.campaigns &&
                                  planet in repository.campaigns[i].planets)
  {
  }

  /**
   * `migrationAllowedByBasicCriteria`: the criteria are tried in order and the
   * first one that fails decides; a criterion after it is never looked up.
   */
  function AllowedByBasicCriteria(criteria: seq<string>, planet: Planet, repository: Repository, cfg: SelectionConfig): (r: Result<bool>)
    reads planet
    ensures r == Success(true) <==> forall i :: 0 <= i < |criteria| ==> Criterion(criteria[i], planet, repository, cfg) == Success(true)
    ensures r.Failure? <==>
            exists i :: 0 <= i < |criteria| && criteria[i] !in KnownCriteria &&
              (forall j :: 0 <= j < i ==> Criterion(criteria[j], planet, repository, cfg) == Success(true))
  {
    if criteria == [] then Success(true)
    else
      match Criterion(criteria[0], planet, repository, cfg)
      case Failure(e) => Failure(e)
      case Success(ok) =>
        if !ok then Success(false)
        else
          var rest := AllowedByBasicCriteria(criteria[1..], planet, repository, cfg);
          assert forall i :: 1 <= i < |criteria| ==> criteria[i] == criteria[1..][i - 1];
          assert rest.Failure? ==>
                   exists i :: 1 <= i < |criteria| && criteria[i] !in KnownCriteria &&
                                 (forall j :: 0 <= j < i ==> Criterion(criteria[j], planet, repository, cfg) == Success(true));
          rest
  }

  /** `migrationAllowedByAdvancedCriteria`: every predicate is evaluated and combined by the configured formula. */
  predicate AllowedByAdvancedCriteria(planet: Planet, repository: Repository, cfg: SelectionConfig)
    reads planet
    ensures AllowedByAdvancedCriteria(planet, repository, cfg) <==>
            cfg.allowMigration(
              exists i :: 0 <= i < |repository.campaigns| && repository.campaigns[i].name in cfg.campaigns &&
                            planet in repository.campaigns[i].planets,
              planet.containingFile in cfg.files,
              exists i :: 0 <= i < |cfg.areas| && cfg.areas[i].Contains(planet.x, planet.y),
              cfg.selectionFunction.None? || cfg.selectionFunction.value(planet, repository))
  {
    cfg.allowMigration(
      SelectByCampaign(planet, repository.campaigns, cfg.campaigns),
      SelectByFile(planet, cfg.files),
      SelectByQuadrant(planet, QuadrantSuperposition(cfg.areas)),
      SelectByCustomCriterion(planet, repository, cfg.selectionFunction))
  }

  /** The predicate `buildSelectionCriteria` returns. */
  datatype Selector = BasicCriteria(criteria: seq<string>) | AdvancedCriteria

  /** Calling the returned predicate on a planet. */
  function MigrationAllowed(selector: Selector, planet: Planet, repository: Repository, cfg: SelectionConfig): Result<bool>
    reads planet
  {
    match selector
    case BasicCriteria(criteria) => AllowedByBasicCriteria(criteria, planet, repository, cfg)
    case AdvancedCriteria => Success(AllowedByAdvancedCriteria(planet, repository, cfg))
  }

  /**
   * `buildSelectionCriteria` as written: with an empty criterion list it
   * returns `migrationAllowedByBasicCriteria`, a local bound only inside the
   * branch for a non-empty list, so the call raises UnboundLocalError.
   */
  function BuildSelectionCriteriaAsWritten(useSelectionCriteria: seq<string>): (r: Result<Selector>)
    ensures r.Failure? <==> useSelectionCriteria == []
    ensures r.Failure? ==> r.error == UnboundLocalError("migrationAllowedByBasicCriteria")
    ensures r.Success? ==> r.value.BasicCriteria? && r.value.criteria == useSelectionCriteria
  {
    if |useSelectionCriteria| > 0 then Success(BasicCriteria(useSelectionCriteria))
    else Failure(UnboundLocalError("migrationAllowedByBasicCriteria"))
  }

  /** `buildSelectionCriteria` as intended: the formula combiner when no criterion is listed. */
  function BuildSelectionCriteria(useSelectionCriteria: seq<string>): (r: Selector)
    ensures useSelectionCriteria == [] ==> r == AdvancedCriteria
    ensures BuildSelectionCriteriaAsWritten(useSelectionCriteria).Success? ==>
            r == BuildSelectionCriteriaAsWritten(useSelectionCriteria).value
  {
    if |useSelectionCriteria| > 0 then BasicCriteria(useSelectionCriteria) else AdvancedCriteria
  }

  /** With no criterion listed, the written builder fails where the intended one decides by the formula. */
  lemma EmptyCriteriaFinding(planet: Planet, repository: Repository, cfg: SelectionConfig)
    ensures BuildSelectionCriteriaAsWritten([]) == Failure(UnboundLocalError("migrationAllowedByBasicCriteria"))
    ensures MigrationAllowed(BuildSelectionCriteria([]), planet, repository, cfg) ==
            Success(cfg.allowMigration(
              SelectByCampaign(planet, repository.campaigns, cfg.campaigns),
              SelectByFile(planet, cfg.files),
              SelectByQuadrant(planet, QuadrantSuperposition(cfg.areas)),
              SelectByCustomCriterion(planet, repository, cfg.selectionFunction)))
  {
  }

  /**
   * With the shipped formula, a planet passes the advanced criteria exactly
   * when it lies in the selected area, or it is both in a selected campaign
   * and in a selected file; the custom function is not consulted.
   */
  lemma ShippedFormula(planet: Planet, repository: Repository, cfg: SelectionConfig)
    requires cfg.allowMigration == DefaultSelectionConfig().allowMigration
    ensures AllowedByAdvancedCriteria(planet, repository, cfg) <==>
            (exists i :: 0 <= i < |cfg.areas| && cfg.areas[i].Contains(planet.x, planet.y)) ||
            ((exists i :: 0 <= i < |repository.campaigns| && repository.campaigns[i].name in cfg.campaigns &&
                            planet in repository.campaigns[i].planets) &&
             planet.containingFile in cfg.files)
  {
  }

  /**
   * With a non-empty list of known criteria, a planet is allowed exactly when
   * every listed criterion selects it.
   */
  lemma {:induction false} BasicSelectionIff(useSelectionCriteria: seq<string>, planet: Planet, repository: Repository, cfg: SelectionConfig)
    requires |useSelectionCriteria| > 0
    requires forall i :: 0 <= i < |useSelectionCriteria| ==> useSelectionCriteria[i] in KnownCriteria
    ensures MigrationAllowed(BuildSelectionCriteria(useSelectionCriteria), planet, repository, cfg).Success?
    ensures MigrationAllowed(BuildSelectionCriteria(useSelectionCriteria), planet, repository, cfg).value <==>
            forall i :: 0 <= i < |useSelectionCriteria| ==> Criterion(useSelectionCriteria[i], planet, repository, cfg).value
  {
    var criteria := useSelectionCriteria;
    var r := AllowedByBasicCriteria(criteria, planet, repository, cfg);
    assert r.Success?;
    forall i | 0 <= i < |criteria|
      ensures Criterion(criteria[i], planet, repository, cfg).Success?
    {
    }
  }

  /** With the shipped configuration the selector allows a planet exactly when some campaign named Sandbox_Large_Stargate_Universe_Tauri holds it. */
  lemma DefaultSelection(planet: Planet, repository: Repository)
    ensures MigrationAllowed(BuildSelectionCriteria(DefaultSelectionConfig().useSelectionCriteria), planet, repository, DefaultSelectionConfig()) ==
            Success(exists i :: (0 <= i < |repository.campaigns| &&
              repository.campaigns[i].name == "Sandbox_Large_Stargate_Universe_Tauri" && planet in repository.campaigns[i].planets))
  {
    var cfg := DefaultSelectionConfig();
    assert AllowedByBasicCriteria(["campaigns"], planet, repository, cfg) ==
           Criterion("campaigns", planet, repository, cfg);
  }

  /**
   * `determineMigratingPlanets`: in repository order, the planets whose name
   * is not ignored and that the selector allows; an ignored planet is never
   * handed to the selector, and the first error the selector raises aborts.
   */
  function Migrating(planets: seq<Planet>, selector: Selector, repository: Repository, cfg: SelectionConfig): (r: Result<seq<Planet>>)
    reads set p | p in planets
    ensures r.Success? ==> |r.value| <= |planets|
  {
    if planets == [] then Success([])
    else
      var n := |planets| - 1;
      var before := Migrating(planets[..n], selector, repository, cfg);
      if before.Failure? || planets[n].name in cfg.ignore then before
      else
        match MigrationAllowed(selector, planets[n], repository, cfg)
        case Failure(e) => Failure(e)
        case Success(allowed) => if allowed then Success(before.value + [planets[n]]) else before
  }

  /** The selection of a planet that is not ignored. */
  predicate Selected(planet: Planet, selector: Selector, repository: Repository, cfg: SelectionConfig)
    reads planet
  {
    planet.name !in cfg.ignore && MigrationAllowed(selector, planet, repository, cfg) == Success(true)
  }

  /** A successful filtering keeps exactly the selected planets. */
  lemma {:induction false} MigratingExactly(planets: seq<Planet>, selector: Selector, repository: Repository, cfg: SelectionConfig, p: Planet)
    requires Migrating(planets, selector, repository, cfg).Success?
    ensures p in Migrating(planets, selector, repository, cfg).value <==> p in planets && Selected(p, selector, repository, cfg)
  {
    if planets != [] {
      var n := |planets| - 1;
      assert planets == planets[..n] + [planets[n]];
      MigratingExactly(planets[..n], selector, repository, cfg, p);
    }
  }

  /**
   * A successful filtering keeps a selected planet as often as the
   * repository lists it, and drops every other planet entirely.
   */
  lemma {:induction false} MigratingCount(planets: seq<Planet>, selector: Selector, repository: Repository, cfg: SelectionConfig, p: Planet)
    requires Migrating(planets, selector, repository, cfg).Success?
    ensures multiset(Migrating(planets, selector, repository, cfg).value)[p] ==
            if Selected(p, selector, repository, cfg) then multiset(planets)[p] else 0
  {
    if planets != [] {
      var n := |planets| - 1;
      var prefix := planets[..n];
      assert planets == prefix + [planets[n]];
      MigratingCount(prefix, selector, repository, cfg, p);
      var before := Migrating(prefix, selector, repository, cfg).value;
      var after := Migrating(planets, selector, repository, cfg).value;
      if planets[n] == p {
        assert after == before <==> !Selected(p, selector, repository, cfg);
        assert after == before || after == before + [p];
      } else {
        assert after == before || after == before + [planets[n]];
      }
    }
  }

  /** `a` is `b` with some elements dropped, the rest kept in order. */
  ghost predicate SubsequenceOf<T>(a: seq<T>, b: seq<T>)
    decreases |b|
  {
    a == [] ||
    (b != [] &&
     ((a[|a| - 1] == b[|b| - 1] && SubsequenceOf(a[..|a| - 1], b[..|b| - 1])) || SubsequenceOf(a, b[..|b| - 1])))
  }

  lemma {:induction false} SubsequenceOfSnoc<T>(a: seq<T>, b: seq<T>, x: T)
    requires SubsequenceOf(a, b)
    ensures SubsequenceOf(a, b + [x]) && SubsequenceOf(a + [x], b + [x])
  {
    assert (b + [x])[..|b|] == b;
    assert (a + [x])[..|a|] == a;
  }

  /** A successful filtering keeps the repository order. */
  lemma {:induction false} MigratingInOrder(planets: seq<Planet>, selector: Selector, repository: Repository, cfg: SelectionConfig)
    requires Migrating(planets, selector, repository, cfg).Success?
    ensures SubsequenceOf(Migrating(planets, selector, repository, cfg).value, planets)
  {
    if planets != [] {
      var n := |planets| - 1;
      var prefix := planets[..n];
      assert planets == prefix + [planets[n]];
      var before := Migrating(prefix, selector, repository, cfg).value;
      MigratingInOrder(prefix, selector, repository, cfg);
      SubsequenceOfSnoc(before, prefix, planets[n]);
      var after := Migrating(planets, selector, repository, cfg).value;
      assert after == before || after == before + [planets[n]];
    }
  }

  /** The selector raises an error on a planet that is not ignored. */
  predicate SelectorFailsOn(planet: Planet, selector: Selector, repository: Repository, cfg: SelectionConfig)
    reads planet
  {
    planet.name !in cfg.ignore && MigrationAllowed(selector, planet, repository, cfg).Failure?
  }

  /** A failed filtering has met a planet on which the selector fails. */
  lemma {:induction false} MigratingFailureHasCause(planets: seq<Planet>, selector: Selector, repository: Repository, cfg: SelectionConfig)
    requires Migrating(planets, selector, repository, cfg).Failure?
    ensures exists i :: 0 <= i < |planets| && SelectorFailsOn(planets[i], selector, repository, cfg)
  {
    var n := |planets| - 1;
    var prefix := planets[..n];
    if Migrating(prefix, selector, repository, cfg).Failure? {
      MigratingFailureHasCause(prefix, selector, repository, cfg);
      var i :| 0 <= i < n && SelectorFailsOn(prefix[i], selector, repository, cfg);
      assert prefix[i] == planets[i];
    } else {
      assert SelectorFailsOn(planets[n], selector, repository, cfg);
    }
  }

  /** A planet on which the selector fails makes the whole filtering fail. */
  lemma {:induction false} MigratingFailsOnCause(planets: seq<Planet>, selector: Selector, repository: Repository, cfg: SelectionConfig, i: nat)
    requires i < |planets| && SelectorFailsOn(planets[i], selector, repository, cfg)
    ensures Migrating(planets, selector, repository, cfg).Failure?
  {
    var n := |planets| - 1;
    var prefix := planets[..n];
    if i < n {
      assert prefix[i] == planets[i];
      MigratingFailsOnCause(prefix, selector, repository, cfg, i);
    } else {
      assert planets[i] == planets[n];
    }
  }

  /** The filtering fails exactly when the selector fails on a planet that is not ignored. */
  lemma MigratingFails(planets: seq<Planet>, selector: Selector, repository: Repository, cfg: SelectionConfig)
    ensures Migrating(planets, selector, repository, cfg).Failure? <==>
            exists i :: 0 <= i < |planets| && SelectorFailsOn(planets[i], selector, repository, cfg)
  {
    if Migrating(planets, selector, repository, cfg).Failure? {
      MigratingFailureHasCause(planets, selector, repository, cfg);
    }
    if i :| 0 <= i < |planets| && SelectorFailsOn(planets[i], selector, repository, cfg) {
      MigratingFailsOnCause(planets, selector, repository, cfg, i);
    }
  }

  /**
   * With the shipped configuration the filtering never fails, and a planet
   * migrates exactly when it is listed, its name is not ignored and some
   * campaign named Sandbox_Large_Stargate_Universe_Tauri holds it.
   */
  lemma DefaultMigrating(planets: seq<Planet>, repository: Repository, p: Planet)
    ensures Migrating(planets, BuildSelectionCriteria(DefaultSelectionConfig().useSelectionCriteria), repository, DefaultSelectionConfig()).Success?
    ensures p in Migrating(planets, BuildSelectionCriteria(DefaultSelectionConfig().useSelectionCriteria), repository, DefaultSelectionConfig()).value <==>
            p in planets && p.name !in DefaultSelectionConfig().ignore &&
            exists i :: (0 <= i < |repository.campaigns| &&
              repository.campaigns[i].name == "Sandbox_Large_Stargate_Universe_Tauri" && p in repository.campaigns[i].planets)
  {
    var cfg := DefaultSelectionConfig();
    var selector := BuildSelectionCriteria(cfg.useSelectionCriteria);
    forall i | 0 <= i < |planets|
      ensures !SelectorFailsOn(planets[i], selector, repository, cfg)
    {
      DefaultSelection(planets[i], repository);
    }
    MigratingFails(planets, selector, repository, cfg);
    MigratingExactly(planets, selector, repository, cfg, p);
    DefaultSelection(p, repository);
  }

  /**
   * One round of `determineMigratingPlanets`'s loop: planet `i` is skipped
   * when ignored, kept when the selector allows it, and an error of the
   * selector ends the filtering.
   */
  method ConsiderPlanet(planets: seq<Planet>, i: nat, selector: Selector, repository: Repository, cfg: SelectionConfig,
                        migratingPlanets: seq<Planet>)
    returns (r: Result<seq<Planet>>)
    requires i < |planets| && Migrating(planets[..i], selector, repository, cfg) == Success(migratingPlanets)
    ensures r == Migrating(planets[..i + 1], selector, repository, cfg)
  {
    MigratingStep(planets, i, selector, repository, cfg);
    var planet := planets[i];
    if planet.name in cfg.ignore {
      return Success(migratingPlanets);
    }
    var allowed := MigrationAllowed(selector, planet, repository, cfg);
    if allowed.Failure? {
      return Failure(allowed.error);
    }
    if allowed.value {
      return Success(migratingPlanets + [planet]);
    }
    return Success(migratingPlanets);
  }

  /** Filtering one more planet. */
  lemma MigratingStep(planets: seq<Planet>, i: nat, selector: Selector, repository: Repository, cfg: SelectionConfig)
    requires i < |planets|
    ensures var before := Migrating(planets[..i], selector, repository, cfg);
            Migrating(planets[..i + 1], selector, repository, cfg) ==
              if before.Failure? || planets[i].name in cfg.ignore then before
              else
                match MigrationAllowed(selector, planets[i], repository, cfg)
                case Failure(e) => Failure(e)
                case Success(allowed) => if allowed then Success(before.value + [planets[i]]) else before
  {
    assert planets[..i + 1][..i] == planets[..i];
  }

  /** The loop of `determineMigratingPlanets`, with the selector built from the configuration. */
  method DetermineMigratingPlanets(repository: Repository, cfg: SelectionConfig) returns (r: Result<seq<Planet>>)
    ensures r == Migrating(repository.planets, BuildSelectionCriteria(cfg.useSelectionCriteria), repository, cfg)
  {
    var migrationAllowed := BuildSelectionCriteria(cfg.useSelectionCriteria);
    var planets := repository.planets;
    var migratingPlanets: seq<Planet> := [];
    for i := 0 to |planets|
      invariant Migrating(planets[..i], migrationAllowed, repository, cfg) == Success(migratingPlanets)
    {
      var step := ConsiderPlanet(planets, i, migrationAllowed, repository, cfg, migratingPlanets);
      if step.Failure? {
        MigratingAbortsAfter(planets, migrationAllowed, repository, cfg, i + 1);
        return step;
      }
      migratingPlanets := step.value;
    }
    assert planets[..|planets|] == planets;
    return Success(migratingPlanets);
  }

  /** Once the filtering of a prefix has failed, the filtering of the whole list fails with the same error. */
  lemma {:induction false} MigratingAbortsAfter(planets: seq<Planet>, selector: Selector, repository: Repository, cfg: SelectionConfig, i: nat)
    requires i <= |planets| && Migrating(planets[..i], selector, repository, cfg).Failure?
    ensures Migrating(planets, selector, repository, cfg) == Migrating(planets[..i], selector, repository, cfg)
    decreases |planets| - i
  {
    if i < |planets| {
      assert planets[..i + 1][..i] == planets[..i];
      MigratingAbortsAfter(planets, selector, repository, cfg, i + 1);
    } else {
      assert planets[..i] == planets;
    }
  }
}
