# hatch-conda-build, modelled in Dafny

hatch-conda-build is a hatchling builder plugin that turns a Python
project's metadata into a conda recipe and runs `conda build` on it to make
a `noarch: python` package. This project models the plugin's own logic in
`hatch_conda_build/plugin.py` and proves what it guarantees:

- `normalize_pypi_packages` (module `Normalize`) — drops every requirement
  that mentions `hatch-conda-build` and cuts a direct reference `name @ url`
  down to the text before the first `@`. It is a loop method, proved equal
  to the specification function `Normalized`. Lemmas about `Normalized`
  cover cleanliness, membership, order, length and idempotence.
- the recipe assembly of `construct_meta_yaml_from_pyproject` (module
  `Recipe`) — a method that fills the recipe section by section. Its inputs
  are what grayskull extracted (`reqs`), the `project` table and the
  `conda` target table. A missing `"host"` or `"run"` key raises `KeyError`.
- `conda_build` (module `CondaBuild`) — builds the `conda build` argument
  vector in a loop and computes the artifact path. The subprocess is the
  parameter `exitCode`; a non-zero exit raises `CalledProcessError`.
- `CondaBuilder.build_standard` — the `conda` output subdirectory, the
  `["defaults"]` channel and `1.22` numpy defaults, and the return value.
  It returns the output folder as a string, not the artifact path.

Support modules: `Wrappers` holds `Option`, `Result` and the error kinds.
`Text` holds Python's substring test, `str.split(c)[0]` and decimal
rendering. `Paths` holds `pathlib` paths as an absolute flag plus components,
with `/`, `.parent`, `.name` and `str()`.

Three points about what the code does:

- `--numpy <version>` is always passed, with `1.22` as the default. It comes
  right after `--override-channels` and before the channel flags.
- `build_standard` returns the output folder, not the artifact path.
  `conda_build` computes the artifact path, but `build_standard` throws it away.
- The interpreter constraint (`python >=3.10`) at the head of `run` comes
  from grayskull's extraction, so here it is part of the input `reqs`.

## Model

| member | source | states |
|---|---|---|
| `Text.BeforeFirst` | hatch_conda_build/plugin.py:21-22 | `split("@")[0]` returns a prefix with no `@`. When `@` occurs, the next character is that first `@`; when it does not, the whole string comes back. |
| `Text.PrefixSubstring` | hatch_conda_build/plugin.py:18-22 | a block found in a prefix of a string is found in the string, so truncating cannot add a mention of the plugin |
| `Text.HasSubstringIff` | hatch_conda_build/plugin.py:18 | the substring test `t in s` holds iff `t` occurs at some index of `s` |
| `Text.NatToString` | hatch_conda_build/plugin.py:144 | the rendered build number is a non-empty string of decimal digits with no leading zero, except `0` itself |
| `Wrappers.Option.GetOr` | hatch_conda_build/plugin.py:93-96 | `d.get(key, default)` is the stored value when the key is present, else the default |
| `Text.DecimalRoundTrip` | hatch_conda_build/plugin.py:144 | reading back the rendered build number gives the number |
| `Paths.Join` | hatch_conda_build/plugin.py:146 | `p / name` has parent `p` and name `name` |
| `Paths.Parent` | hatch_conda_build/plugin.py:63 | `.parent` drops the last component, so `p.parent / p.name` is `p`; `/` and `.` are their own parents |
| `Paths.ToStringJoin` | hatch_conda_build/plugin.py:146 | `str(p / name)` is `str(p) + "/" + name`, except for the paths `.` and `/` |
| `Normalize.Truncate` | hatch_conda_build/plugin.py:21-22 | a survivor's rewrite has no `@`. It is the prefix before the first `@` when there is one, and the entry unchanged otherwise. |
| `Normalize.NormalizePypiPackages` | hatch_conda_build/plugin.py:15-25 | the loop's output equals `Normalized(packages)`, and every entry is free of `hatch-conda-build` and of `@` |
| `Normalize.TruncateClean` | hatch_conda_build/plugin.py:17-24 | an entry that passes the self-reference filter is clean after truncation |
| `Normalize.NormalizedClean` | hatch_conda_build/plugin.py:17-24 | no output entry contains `hatch-conda-build` or `@` |
| `Normalize.NormalizedAppend` | hatch_conda_build/plugin.py:16-25 | normalizing `a + b` gives normalized `a` followed by normalized `b`: order is kept entry by entry |
| `Normalize.NormalizedCons` | hatch_conda_build/plugin.py:17-24 | the first entry contributes nothing if it is a self-reference, otherwise its truncation, ahead of the rest |
| `Normalize.NormalizedMembers` | hatch_conda_build/plugin.py:16-25 | `x` is in the output iff `x` is the truncation of some input entry that does not mention the plugin |
| `Normalize.NormalizedLength` | hatch_conda_build/plugin.py:16-25 | the output is never longer than the input. It has the same length iff no input entry mentions the plugin. |
| `Normalize.NormalizedFixesClean` | hatch_conda_build/plugin.py:17-24 | a list of entries free of the plugin's name and of `@` passes through unchanged |
| `Normalize.NormalizedIdempotent` | hatch_conda_build/plugin.py:15-25 | normalizing the output again changes nothing |
| `Recipe.ConstructMetaYamlFromPyproject` | hatch_conda_build/plugin.py:45-108 | see the note below this table |
| `CondaBuild.ChannelFlagsShape` | hatch_conda_build/plugin.py:133-134 | the channel loop adds two arguments per channel, `--channel` then that channel, in order |
| `CondaBuild.CommandShape` | hatch_conda_build/plugin.py:123-134 | see the note below this table |
| `CondaBuild.ArtifactPathShape` | hatch_conda_build/plugin.py:141-146 | see the note below this table |
| `CondaBuild.ArtifactNameNumber` | hatch_conda_build/plugin.py:141-146 | build number 0 gives a name ending `-py_0.tar.bz2`; different build numbers give different names |
| `CondaBuild.CondaBuildRun` | hatch_conda_build/plugin.py:123-146 | the command built by the loop equals `CondaBuildCommand`: 8 arguments plus two per channel. A non-zero exit gives `CalledProcessError(exitCode)`; exit 0 gives the artifact path. |
| `CondaBuild.CondaTargetConfig` | hatch_conda_build/plugin.py:161 | the `conda` target table when `targets` has one, else the table with every key absent |
| `CondaBuild.OutputDirectory` | hatch_conda_build/plugin.py:159 | the output folder is the `conda` child of `directory` |
| `CondaBuild.Channels` | hatch_conda_build/plugin.py:171 | the channels are the configured list when the key is present, else `["defaults"]` |
| `CondaBuild.NumpyVersion` | hatch_conda_build/plugin.py:172-174 | the numpy pin is the configured version when the key is present, else `1.22` |
| `CondaBuild.BuildStandard` | hatch_conda_build/plugin.py:158-179 | see the note below this table |

Notes on the longer rows:

- `Recipe.ConstructMetaYamlFromPyproject`:
  - A missing `host` key gives `KeyError("host")`. A missing `run` key, with `host` present, gives `KeyError("run")`. Otherwise the result is a recipe.
  - The package name and version are the metadata's.
  - The source path is the directory that holds `pyproject.toml`.
  - The build number is 0, noarch is `python`, and the script is the fixed pip command.
  - The `build` requirements and `test` are empty.
  - `host` is `Normalized(reqs["host"])`, with every entry clean.
  - `run` is `reqs["run"]` followed by the configured `run` list, or by nothing.
  - `run_constrained` is the configured list, or empty.
  - `about.home` is present iff `urls` has a `homepage` key, and then equals it.
  - `about.summary` is present iff `description` is present, and then equals it.
  - The recipe has an `about` table at all iff one of those two keys is present.
- `CondaBuild.CommandShape`:
  - The command has `8 + 2*|channels|` arguments.
  - The first 8 are `conda build <build_dir> --output-folder <out_dir> --override-channels --numpy <version>`.
  - Then come the pairs `--channel c`, one per channel, in order.
- `CondaBuild.ArtifactPathShape`:
  - The artifact's grandparent is the output folder and its parent is `noarch`.
  - Its name is `<name>-<version>-py_<number>.tar.bz2`.
  - So its string is `<out_dir>/noarch/<that name>`, when the output folder has at least one component (always so for `directory/conda`).
- `CondaBuild.BuildStandard`:
  - A `KeyError` from the assembly runs no command.
  - Otherwise the command built is `CondaBuildCommand(tmpdir, directory/conda, channels, numpy)`.
  - The channels default to `["defaults"]`, so the flags are exactly `--channel defaults`, and the numpy version defaults to `1.22`.
  - A non-zero exit gives `CalledProcessError`.
  - The result is `Ok` iff both keys exist and the exit code is 0. It is then `str(directory/conda)`, not the artifact path.

## Left out

- The grayskull and souschef calls (`get_all_toml_info`, `merge_setup_toml_metadata`, `merge_pypi_sdist_metadata`, `extract_requirements`, `normalize_requirements_list`, `Recipe`, `Configuration`; lines 32-59) are foreign library code whose mapping rules are not visible. Their results are the inputs `reqs` and `project`. So the name mapping (`Flask` to `flask`, `build` to `python-build`) and the inserted `python` constraint seen in tests/test_builder.py are not modelled.
- The `project` table is always given. A `KeyError` from `full_metadata["project"]` missing entirely (line 102) is not modelled, and neither is a non-string `description` or `homepage`.
- Writing `meta.yaml` with `json.dump`, the `print` calls, `tempfile.TemporaryDirectory` and its cleanup, and `shutil.rmtree` in `clean` are I/O. The temporary directory is the parameter `tmpdir`. The subprocess is reduced to its exit status `exitCode`. Filesystem errors are not modelled.
- Turning the string `directory` into a `pathlib.Path` is not modelled: no collapsing of repeated `/` and no dropping of `.` components. `BuildStandard` takes the path already split into components. A component that itself contains `/` (a package name with a slash) is not split again as `pathlib` would.
- The hatchling plumbing (`BuilderInterface`, `PLUGIN_NAME`, `get_version_api`, `get_config_class`) is left out. hatch_conda_build/config.py is not part of this model. `self.metadata` and `self.build_config` are parameters of `BuildStandard`.
- Build numbers are `nat`. `construct_meta_yaml_from_pyproject` only ever writes `0`, so negative build numbers, which `conda_build` would render with a `-`, are not modelled.
- tests/test_hatch.py is an end-to-end run of `python -m build` and is not modelled.
