/** `construct_meta_yaml_from_pyproject`: assembling the conda recipe from
    the project's metadata, the requirement lists grayskull extracted and the
    `conda` target's configuration. */
module Recipe {
  import opened Wrappers
  import opened Paths
  import opened Normalize

  /** What hatchling tells the builder about the project. */
  datatype Metadata = Metadata(name: string, version: string, projectFile: Path)

  /** The `project` table of `pyproject.toml`, reduced to the keys the
      recipe reads: `urls` and `description`. */
  datatype ProjectTable = ProjectTable(urls: Option<map<string, string>>, description: Option<string>)

  /** The `[tool.hatch.build.targets.conda]` table; each key may be absent. */
  datatype TargetConfig = TargetConfig(
    channels: Option<seq<string>>,
    defaultNumpyVersion: Option<string>,
    run: Option<seq<string>>,
    runConstrained: Option<seq<string>>)

  /** The recipe, section by section. */
  datatype PackageSection = PackageSection(name: string, version: string)
  datatype SourceSection = SourceSection(path: string)
  datatype BuildSection = BuildSection(number: nat, noarch: string, script: string)
  datatype RequirementsSection = RequirementsSection(
    build: seq<string>, host: seq<string>, run: seq<string>, runConstrained: seq<string>)
  /** Absent keys are `None`; when both are, the recipe has no `about` table. */
  datatype AboutSection = AboutSection(home: Option<string>, summary: Option<string>)
  datatype CondaRecipe = CondaRecipe(
    package: PackageSection,
    source: SourceSection,
    build: BuildSection,
    requirements: RequirementsSection,
    test: map<string, string>,
    about: AboutSection)

  /** The install command of every recipe: pip without dependency resolution. */
  const PipScript: string := "{{ PYTHON }} -m pip install --no-deps --ignore-installed . -vv"

  /** The recipe has an `about` table at all (`construct_meta_yaml_from_pyproject`
      fills a `defaultdict`, so a table nobody writes to never appears). */
  predicate HasAbout(r: CondaRecipe)
  {
    r.about.home.Some? || r.about.summary.Some?
  }

  /** Fills the recipe field by field. `reqs` is what grayskull's
      `extract_requirements` and `normalize_requirements_list` made of the
      project; looking up `"host"` or `"run"` in it raises `KeyError` when
      the key is missing, `"host"` first. */
  method ConstructMetaYamlFromPyproject(
    metadata: Metadata,
    reqs: map<string, seq<string>>,
    project: ProjectTable,
    config: TargetConfig)
    returns (r: Result<CondaRecipe>)
    ensures "host" !in reqs ==> r == Err(KeyError("host"))
    ensures "host" in reqs && "run" !in reqs ==> r == Err(KeyError("run"))
    ensures r.Ok? <==> "host" in reqs && "run" in reqs
    ensures r.Ok? ==>
      var recipe := r.value;
      && recipe.package.name == metadata.name
      && recipe.package.version == metadata.version
      && recipe.source.path == ToString(Parent(metadata.projectFile))
      && recipe.build.number == 0
      && recipe.build.noarch == "python"
      && recipe.build.script == PipScript
      && recipe.requirements.build == []
      && recipe.test == map[]
    ensures r.Ok? ==>
      var req := r.value.requirements;
      && req.host == Normalized(reqs["host"])
      && (forall i :: 0 <= i < |req.host| ==> Clean(req.host[i]))
      && req.run == reqs["run"] + config.run.GetOr([])
      && req.runConstrained == config.runConstrained.GetOr([])
    ensures r.Ok? ==>
      var about := r.value.about;
      && (about.home.Some? <==> project.urls.Some? && "homepage" in project.urls.value)
      && (about.home.Some? ==> about.home.value == project.urls.value["homepage"])
      && (about.summary.Some? <==> project.description.Some?)
      && (about.summary.Some? ==> about.summary.value == project.description.value)
    ensures r.Ok? ==>
      (HasAbout(r.value) <==>
         (project.urls.Some? && "homepage" in project.urls.value) || project.description.Some?)
  {
    var package := PackageSection(metadata.name, metadata.version);
    var source := SourceSection(ToString(Parent(metadata.projectFile)));
    var build := BuildSection(0, "python", PipScript);

    if "host" !in reqs {
      return Err(KeyError("host"));
    }
    var host := NormalizePypiPackages(reqs["host"]);
    if "run" !in reqs {
      return Err(KeyError("run"));
    }
    var condaRunDeps := config.run.GetOr([]);
    var run := reqs["run"] + condaRunDeps;
    var runConstrained := config.runConstrained.GetOr([]);
    var requirements := RequirementsSection([], host, run, runConstrained);

    var urls := project.urls.GetOr(map[]);
    var home := if "homepage" in urls then Some(urls["homepage"]) else None;
    var summary := if project.description.Some? then Some(project.description.value) else None;

    r := Ok(CondaRecipe(package, source, build, requirements, map[], AboutSection(home, summary)));
  }
}
