/** `conda_build` and `CondaBuilder.build_standard`: the `conda build`
    command line, the artifact path it is expected to produce, and the
    defaults the builder fills in from the target configuration. */
module CondaBuild {
  import opened Wrappers
  import opened Text
  import opened Paths
  import opened Recipe

  /** The eight arguments that open every `conda build` command. */
  function CommandPrefix(buildDirectory: Path, outputDirectory: Path, numpyVersion: string): seq<string>
  {
    ["conda", "build", ToString(buildDirectory), "--output-folder", ToString(outputDirectory),
     "--override-channels", "--numpy", numpyVersion]
  }

  /** One `--channel c` pair per channel, in order. */
  function ChannelFlags(channels: seq<string>): seq<string>
  {
    if channels == [] then []
    else ChannelFlags(channels[..|channels| - 1]) + ["--channel", channels[|channels| - 1]]
  }

  /** The command `conda_build` hands to the subprocess. */
  function CondaBuildCommand(
    buildDirectory: Path, outputDirectory: Path, channels: seq<string>, numpyVersion: string): seq<string>
  {
    CommandPrefix(buildDirectory, outputDirectory, numpyVersion) + ChannelFlags(channels)
  }

  /** The channel flags alternate `--channel` and the channels themselves. */
  lemma {:induction false} ChannelFlagsShape(channels: seq<string>)
    ensures |ChannelFlags(channels)| == 2 * |channels|
    ensures forall k :: 0 <= k < |channels| ==>
      ChannelFlags(channels)[2 * k] == "--channel" && ChannelFlags(channels)[2 * k + 1] == channels[k]
    decreases |channels|
  {
    if channels != [] {
      var init := channels[..|channels| - 1];
      ChannelFlagsShape(init);
      forall k | 0 <= k < |init| ensures init[k] == channels[k] { }
    }
  }

  /** The command is the fixed prefix, always with `--numpy` and its version
      at positions 6 and 7, followed by one `--channel c` pair per channel. */
  lemma {:induction false} CommandShape(
    buildDirectory: Path, outputDirectory: Path, channels: seq<string>, numpyVersion: string)
    ensures var command := CondaBuildCommand(buildDirectory, outputDirectory, channels, numpyVersion);
      && |command| == 8 + 2 * |channels|
      && command[..8] == ["conda", "build", ToString(buildDirectory), "--output-folder",
                          ToString(outputDirectory), "--override-channels", "--numpy", numpyVersion]
      && command[8..] == ChannelFlags(channels)
      && forall k :: 0 <= k < |channels| ==>
           command[8 + 2 * k] == "--channel" && command[9 + 2 * k] == channels[k]
  {
    ChannelFlagsShape(channels);
    var command := CondaBuildCommand(buildDirectory, outputDirectory, channels, numpyVersion);
    assert command[..8] == CommandPrefix(buildDirectory, outputDirectory, numpyVersion);
    forall k | 0 <= k < |channels|
      ensures command[8 + 2 * k] == "--channel" && command[9 + 2 * k] == channels[k]
    {
      assert command[8 + 2 * k] == ChannelFlags(channels)[2 * k];
      assert command[9 + 2 * k] == ChannelFlags(channels)[2 * k + 1];
    }
  }

  /** The file name of the package: `<name>-<version>-py_<number>.tar.bz2`. */
  function ArtifactName(name: string, version: string, number: nat): string
  {
    name + "-" + version + "-py_" + NatToString(number) + ".tar.bz2"
  }

  /** Where `conda build` puts a `noarch` package in the output folder. */
  function ArtifactPath(outputDirectory: Path, meta: CondaRecipe): Path
  {
    Join(Join(outputDirectory, "noarch"), ArtifactName(meta.package.name, meta.package.version, meta.build.number))
  }

  /** The artifact lies in the `noarch` subdirectory of the output folder,
      and its name carries the package's name, version and build number. */
  lemma ArtifactPathShape(outputDirectory: Path, meta: CondaRecipe)
    ensures var p := ArtifactPath(outputDirectory, meta);
      && Parent(Parent(p)) == outputDirectory
      && Name(Parent(p)) == "noarch"
      && Name(p) == meta.package.name + "-" + meta.package.version + "-py_"
                      + NatToString(meta.build.number) + ".tar.bz2"
    ensures outputDirectory.parts != [] ==>
      ToString(ArtifactPath(outputDirectory, meta)) ==
        ToString(outputDirectory) + "/noarch/" + Name(ArtifactPath(outputDirectory, meta))
  {
    var noarch := Join(outputDirectory, "noarch");
    ToStringJoin(outputDirectory, "noarch");
    ToStringJoin(noarch, Name(ArtifactPath(outputDirectory, meta)));
  }

  /** For a recipe of build number 0, as `construct_meta_yaml_from_pyproject`
      always makes, the name ends in `-py_0.tar.bz2`; a different build number
      would give a different name. */
  lemma ArtifactNameNumber(name: string, version: string, number: nat, other: nat)
    ensures ArtifactName(name, version, 0) == name + "-" + version + "-py_0.tar.bz2"
    ensures number != other ==> ArtifactName(name, version, number) != ArtifactName(name, version, other)
  {
    assert NatToString(0) == "0";
    if number != other && ArtifactName(name, version, number) == ArtifactName(name, version, other) {
      var a := NatToString(number);
      var b := NatToString(other);
      var head := name + "-" + version + "-py_";
      var tail := ".tar.bz2";
      assert ArtifactName(name, version, number) == head + a + tail;
      assert ArtifactName(name, version, other) == head + b + tail;
      assert |a| == |b|;
      assert a == (head + a + tail)[|head|..|head| + |a|];
      assert b == (head + b + tail)[|head|..|head| + |b|];
      DecimalRoundTrip(number);
      DecimalRoundTrip(other);
      assert false;
    }
  }

  /** Writes the recipe (left out: the file `meta.yaml` in `buildDirectory`),
      runs `conda build` and returns the computed artifact path. The
      subprocess is the parameter `exitCode`: the status the command exits
      with; a non-zero status raises `CalledProcessError`. */
  method CondaBuildRun(
    meta: CondaRecipe,
    buildDirectory: Path,
    outputDirectory: Path,
    channels: seq<string>,
    defaultNumpyVersion: string,
    exitCode: int)
    returns (command: seq<string>, r: Result<Path>)
    ensures command == CondaBuildCommand(buildDirectory, outputDirectory, channels, defaultNumpyVersion)
    ensures |command| == 8 + 2 * |channels|
    ensures exitCode != 0 ==> r == Err(CalledProcessError(exitCode))
    ensures exitCode == 0 ==> r == Ok(ArtifactPath(outputDirectory, meta))
  {
    command := ["conda", "build", ToString(buildDirectory), "--output-folder", ToString(outputDirectory),
                "--override-channels", "--numpy", defaultNumpyVersion];
    for i := 0 to |channels|
      invariant command == CommandPrefix(buildDirectory, outputDirectory, defaultNumpyVersion)
                           + ChannelFlags(channels[..i])
    {
      assert channels[..i + 1][..i] == channels[..i];
      command := command + ["--channel", channels[i]];
    }
    assert channels[..|channels|] == channels;
    ChannelFlagsShape(channels);

    if exitCode != 0 {
      return command, Err(CalledProcessError(exitCode));
    }
    var packageName := meta.package.name + "-" + meta.package.version + "-py_"
                       + NatToString(meta.build.number) + ".tar.bz2";
    r := Ok(Join(Join(outputDirectory, "noarch"), packageName));
  }

  /** The `[tool.hatch.build]` table, reduced to its `targets` sub-table. */
  datatype BuildConfig = BuildConfig(targets: Option<map<string, TargetConfig>>)

  /** The configuration with no keys: what `{}` means. */
  const EmptyTargetConfig := TargetConfig(None, None, None, None)

  /** `build_config.get("targets", {}).get("conda", {})`. */
  function CondaTargetConfig(buildConfig: BuildConfig): (c: TargetConfig)
    ensures (buildConfig.targets.None? || "conda" !in buildConfig.targets.value) ==> c == EmptyTargetConfig
    ensures buildConfig.targets.Some? && "conda" in buildConfig.targets.value ==>
      c == buildConfig.targets.value["conda"]
  {
    var targets := buildConfig.targets.GetOr(map[]);
    if "conda" in targets then targets["conda"] else EmptyTargetConfig
  }

  /** The channels to build against; `defaults` unless configured. */
  function Channels(config: TargetConfig): (r: seq<string>)
    ensures config.channels.None? ==> r == ["defaults"]
    ensures config.channels.Some? ==> r == config.channels.value
  {
    config.channels.GetOr(["defaults"])
  }

  /** The numpy pin passed to `conda build`; `1.22` unless configured. */
  function NumpyVersion(config: TargetConfig): (r: string)
    ensures config.defaultNumpyVersion.None? ==> r == "1.22"
    ensures config.defaultNumpyVersion.Some? ==> r == config.defaultNumpyVersion.value
  {
    config.defaultNumpyVersion.GetOr("1.22")
  }

  /** The builder's output folder: the `conda` subdirectory of `directory`. */
  function OutputDirectory(directory: Path): (out: Path)
    ensures Parent(out) == directory && Name(out) == "conda"
  {
    Join(directory, "conda")
  }

  /** `CondaBuilder.build_standard`: assembles the recipe, builds it in the
      temporary directory `tmpdir` and returns the output folder as a string
      (not the artifact path). `invocation` is the command run, or `None` when
      the recipe could not be assembled and nothing ran. */
  method BuildStandard(
    directory: Path,
    metadata: Metadata,
    buildConfig: BuildConfig,
    reqs: map<string, seq<string>>,
    project: ProjectTable,
    tmpdir: Path,
    exitCode: int)
    returns (invocation: Option<seq<string>>, r: Result<string>)
    ensures "host" !in reqs ==> invocation == None && r == Err(KeyError("host"))
    ensures "host" in reqs && "run" !in reqs ==> invocation == None && r == Err(KeyError("run"))
    ensures "host" in reqs && "run" in reqs ==>
      var config := CondaTargetConfig(buildConfig);
      invocation == Some(CondaBuildCommand(tmpdir, OutputDirectory(directory), Channels(config), NumpyVersion(config)))
    ensures "host" in reqs && "run" in reqs && CondaTargetConfig(buildConfig).channels.None? ==>
      invocation.Some? && invocation.value[8..] == ["--channel", "defaults"]
    ensures "host" in reqs && "run" in reqs && CondaTargetConfig(buildConfig).defaultNumpyVersion.None? ==>
      invocation.Some? && invocation.value[7] == "1.22"
    ensures "host" in reqs && "run" in reqs && exitCode != 0 ==> r == Err(CalledProcessError(exitCode))
    ensures r.Ok? <==> "host" in reqs && "run" in reqs && exitCode == 0
    ensures r.Ok? ==> r.value == ToString(OutputDirectory(directory))
  {
    var outputDirectory := Join(directory, "conda");
    var targetConfig := CondaTargetConfig(buildConfig);
    var condaMeta := ConstructMetaYamlFromPyproject(metadata, reqs, project, targetConfig);
    if condaMeta.Err? {
      return None, Err(condaMeta.error);
    }
    var command, built := CondaBuildRun(
      condaMeta.value, tmpdir, outputDirectory,
      targetConfig.channels.GetOr(["defaults"]),
      targetConfig.defaultNumpyVersion.GetOr("1.22"),
      exitCode);
    CommandShape(tmpdir, outputDirectory, Channels(targetConfig), NumpyVersion(targetConfig));
    invocation := Some(command);
    if built.Err? {
      return invocation, Err(built.error);
    }
    r := Ok(ToString(outputDirectory));
  }
}
