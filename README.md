# kamehameha core in Dafny

kamehameha (`khh`) runs resilience tests described by a configuration file. The
file lists:
- services, each with a name and an image;
- journeys, each with a name and shell steps;
- stages, each with a duration and three failure probabilities.

Before anything runs, `Compile` turns a configuration into a docker-compose
workspace in a temporary directory. That workspace holds:
- a base build context;
- one build context per journey, with a fixed Dockerfile and a numbered,
  fail-fast `entrypoint.sh`;
- a `docker-compose.yml` that puts every service and journey on one network
  named `khh_<run id>`.

This project models that core and proves what it promises:

- **Sanitize** (`sanitizeName`): every maximal run of characters outside
  `[A-Za-z0-9_]` becomes one `_`. The scanning definition is proved equal to a
  position-by-position reference (mark, squeeze, render). Further lemmas show
  that it is idempotent, keeps clean names unchanged and keeps every letter and
  digit in order.
- **Artifacts**: the three texts `Compile` builds. Each is a specification
  function over a list of lines (`JourneyDockerfile`, `Entrypoint`,
  `Manifest`). The append loops of the program are methods (`BuildEntrypoint`,
  `BuildManifest`) proved equal to those functions. The layout lemmas read
  each text back line by line.
- **Compose**: `Compile`'s writes over a mutable `FileSystem` class. The
  specification is a *plan*: the directory creations and file writes in
  program order, each with the error it reports. `Perform` runs a plan
  fail-fast. A step fails at a faulty path, when a directory is to be made
  where it or an ancestor is a file, or when a file is to be written where a
  directory is. `Compile` is proved to leave exactly the state and result of
  `Perform` on its plan. The lemmas then cover:
  - which files a successful compile leaves, with their contents and modes;
  - when a compile fails;
  - what a failure leaves behind.
- **Config** (`config.Parse` and the record `Parse` methods): an
  order-preserving, all-or-nothing conversion from raw records to typed ones.
  It stops at the first stage that fails. The three-loop method is proved
  equal to the functional definition.
- **Probability** (`parseProbability`): accepts exactly the texts matching
  `^(\d+\.?\d*)\w*%$`. The value is the greedy capture read as an exact
  decimal and divided by 100.
- **ConfigLoad** (`Load`, `New`, the extension switches):
  - the extension-to-format dispatch;
  - the order of `Load`'s steps;
  - the example document `New` writes, which parses back to the configuration
    it describes.

Randomness, the temporary-directory name, `time.ParseDuration`, the decoders
and encoders, and the outcome of each OS call are parameters.

## Model

| member | source | states |
|---|---|---|
| `Sanitize.SanitizeName` | khh/compose/compose.go:114-118 | the result has only `[A-Za-z0-9_]` characters, is no longer than the input, and is empty exactly when the input is |
| `Sanitize.SanitizeNameSqueezesRuns` | khh/compose/compose.go:114-118 | sanitizing equals the reference: each word character kept in place, each maximal run of other characters replaced by exactly one `_` |
| `Sanitize.SanitizeNameKeepsCleanName` | khh/compose/compose.go:114-118 | a name made only of `[A-Za-z0-9_]` comes back unchanged |
| `Sanitize.SanitizeNameIdempotent` | khh/compose/compose.go:114-118 | sanitizing a sanitized name changes nothing |
| `Sanitize.SanitizeNameKeepsAlphaNums` | khh/compose/compose.go:114-118 | the letters and digits of the name all survive, in their order |
| `Sanitize.SanitizeNameGetIndex` | khh/compose/compose.go:114-118 | `"get index"` becomes `"get_index"` |
| `Sanitize.SanitizeNameSlashColon` | khh/compose/compose.go:114-118 | `"a/b:c"` becomes `"a_b_c"` |
| `Sanitize.SanitizeNameNginxService` | khh/compose/compose.go:114-118 | the service name `"nginx_service"` is kept as it is |
| `Strings.Decimal` | khh/compose/compose.go:88 | `%d` of a non-negative id is a non-empty digit string with a leading `0` only for zero |
| `Strings.DecimalInjective` | khh/compose/compose.go:104-106 | two ids with the same decimal text are equal, so `khh_<id>` names one run only |
| `Artifacts.JourneyDockerfileLayout` | khh/compose/compose.go:50-57 | the journey Dockerfile reads back as its seven fixed lines; the text has no parameter, so it is the same for every journey |
| `Artifacts.BuildEntrypoint` | khh/compose/compose.go:62-69 | appending the header and, per step, `# step i` and the step produces exactly `Entrypoint(steps)` |
| `Artifacts.EntrypointLayout` | khh/compose/compose.go:62-69 | read back by lines, the entrypoint is the shebang and `set -e`, then for each step i (from 1) `# step i` and the step, in order: 2 + 2·n lines for n steps |
| `Artifacts.EntrypointOneStep` | khh/compose/compose.go:62-69 | a one-step script is exactly the four lines shebang, `set -e`, `# step 1`, the step |
| `Artifacts.BuildManifest` | khh/compose/compose.go:75-106 | appending the pieces service by service and journey by journey produces exactly `Manifest(services, journeys, id)` |
| `Artifacts.BuildServiceBlocks` | khh/compose/compose.go:76-89 | the `services:` key and the service loop produce exactly the lines `services:` and one block per service, in order |
| `Artifacts.AppendJourneyBlocks` | khh/compose/compose.go:90-103 | the journey loop appends exactly one block per journey, in order, after the lines already written |
| `Artifacts.ManifestLayout` | khh/compose/compose.go:75-106 | read back by lines, the manifest holds `services:`, one 4-line block per service in order (sanitized name, unchanged image), one 4-line block per journey in order (`journey__<sanitized>`, `build: ./_journeys/<sanitized>`), and then the single network `khh_<id>`; every block joins that network |
| `Artifacts.ManifestOfOne` | khh/compose/compose.go:75-106 | one service and one journey give exactly eleven lines: the key, the service block, the journey block and the two network lines |
| `Compose.Join` | khh/compose/compose.go:46 | `filepath.Join` adds the element as one more path segment, and adds nothing for an empty element, so a name that sanitizes to `""` builds in `_journeys` itself |
| `Compose.FileSystem.MkdirAll` | khh/compose/compose.go:38-40 | it fails exactly at a faulty path or where the path or one of its ancestors is a file, and then changes nothing; otherwise the directory and its ancestors exist |
| `Compose.FileSystem.WriteFile` | khh/compose/compose.go:41-43 | it fails exactly at a faulty path or where the path is a directory, and then changes nothing; otherwise the path holds the file and nothing else changes |
| `Compose.Compile` | khh/compose/compose.go:30-112 | the final file system and the result are those of performing the plan fail-fast: temp root, base directory, base Dockerfile, each journey's directory, Dockerfile and entrypoint, then the manifest; success returns the root |
| `Compose.CompileBase` | khh/compose/compose.go:31-43 | the temporary root, the base directory and the base Dockerfile are the first three steps of the plan, performed fail-fast |
| `Compose.CompileJourney` | khh/compose/compose.go:45-73 | one pass of the journey loop performs that journey's directory, Dockerfile and entrypoint steps of the plan, fail-fast |
| `Compose.CompileManifest` | khh/compose/compose.go:75-111 | rendering and writing `docker-compose.yml` is the plan's last step; a failed write ends the compile with `ManifestFailed` |
| `Compose.PerformSucceedsIff` | khh/compose/compose.go:33-109 | a run completes exactly when no step fails on the disk the earlier steps leave |
| `Compose.PerformSucceedsIffNoClash` | khh/compose/compose.go:33-109 | a run completes exactly when no target is faulty, no directory it creates is a file on the disk or one it writes, and no file it writes is a directory on the disk |
| `Compose.PerformSuccess` | khh/compose/compose.go:30-112 | a completed run adds exactly the planned directories, with their ancestors, and the planned files to the disk |
| `Compose.PerformStopsAtFirstFault` | khh/compose/compose.go:33-109 | when step k is the first to fail on the disk the earlier steps leave, the run reports step k's error and the disk holds only the effects of the steps before k |
| `Compose.PerformFailsAtFirstFault` | khh/compose/compose.go:33-109 | every failed run failed at its first failing step, with only the earlier steps' effects applied |
| `Compose.CompileSucceedsIff` | khh/compose/compose.go:31-111 | a compile succeeds exactly when none of its paths is faulty (the root, the base directory and Dockerfile, each journey's directory, Dockerfile and entrypoint, and the manifest), none of the directories it creates is a file already on the disk, none of the files it writes is a directory already there, and no journey name sanitizes to `""` while another sanitizes to `Dockerfile` (the predicate also lists `entrypoint.sh`, which no sanitized name can equal) |
| `Compose.WorkspaceDirs` | khh/compose/compose.go:31-49 | the directories a compile creates are exactly the base build context `_journeys/_base` and each journey's build context, each with all its ancestors |
| `Compose.PlanClashIff` | khh/compose/compose.go:45-72 | a compile writes a file where it creates a directory exactly when one journey name sanitizes to `""` and another to `Dockerfile` (the predicate also lists `entrypoint.sh`, which no sanitized name can equal) |
| `Compose.SanitizedNameIsNoEntrypoint` | khh/compose/compose.go:114-118 | a sanitized name is never `entrypoint.sh`, because it holds only word characters; so the only clash a compile can meet is between `""` and `Dockerfile` |
| `Compose.EmptyAndDockerfileJourneysFail` | khh/compose/compose.go:45-72 | with one journey named `""` and one named `Dockerfile`, every compile fails, whatever the disk and in either order |
| `Compose.FailedCompileKeepsManifest` | khh/compose/compose.go:107-109 | after a failed compile the manifest path holds what it held before, if anything: no manifest is written unless everything else succeeded |
| `Compose.WorkspaceKeys` | khh/compose/compose.go:37-108 | the files a compile writes are exactly `_journeys/_base/Dockerfile`, `docker-compose.yml` and each journey's `Dockerfile` and `entrypoint.sh` under `_journeys/<sanitized name>` |
| `Compose.WorkspaceManifest` | khh/compose/compose.go:107-109 | `docker-compose.yml` holds the generated manifest with mode 0644 |
| `Compose.WorkspaceBaseDockerfile` | khh/compose/compose.go:37-58 | the base Dockerfile holds the embedded base image text, unless a journey name sanitizes to `_base`; then the journey Dockerfile replaces it |
| `Compose.WorkspaceJourneyFiles` | khh/compose/compose.go:45-73 | every journey's directory holds the fixed Dockerfile; a journey's entrypoint holds its own script unless a later journey sanitizes to the same name and overwrites it |
| `Compose.WorkspaceModes` | khh/compose/compose.go:37-108 | every `entrypoint.sh` gets mode 0755 and every other written file 0644 |
| `Compose.JourneyFileInjective` | khh/compose/compose.go:46-70 | two journey files share a path only if their names sanitize alike and the file names agree |
| `Compose.BaseDockerfileIsJourneyFile` | khh/compose/compose.go:37-58 | a journey file is the base Dockerfile exactly when the journey name sanitizes to `_base` and the file is `Dockerfile` |
| `Compose.ManifestIsNoOtherFile` | khh/compose/compose.go:107 | the manifest path differs from the base Dockerfile and from every journey file |
| `Compose.ExampleJourneyContext` | khh/compose/compose.go:45-73 | for the documented example, `_journeys/get_index` holds the fixed Dockerfile and an executable entrypoint reading shebang, `set -e`, `# step 1`, the step |
| `Compose.ExampleManifest` | khh/compose/compose.go:75-106 | for the documented example the manifest is exactly the eleven lines with `nginx_service`, `journey__get_index`, `build: ./_journeys/get_index` and network `khh_<id>` |
| `Config.ParseService` | khh/config/type.go:108-113 | never fails; copies name and image unchanged |
| `Config.ParseJourney` | khh/config/type.go:115-120 | never fails; copies name and steps unchanged |
| `Config.ParseStage` | khh/config/type.go:122-151 | succeeds exactly when the duration and all three probabilities parse; fields are tried in order (duration, disk corruption, network failure, full outage) and the first failure decides the error; on success name and clients are copied and each probability is `parseProbability`'s value |
| `Config.ConvertAllOk` | khh/config/type.go:97-103 | a loop conversion succeeds exactly when every element converts, and each output is that element's own conversion, in order |
| `Config.ConvertAllFirstError` | khh/config/type.go:97-103 | a failed conversion returns the error of the first failing element in input order |
| `Config.ConvertAllPrefixError` | khh/config/type.go:97-103 | once a prefix fails, the later elements are not looked at |
| `Config.Parse` | khh/config/type.go:76-106 | on success the services, journeys and stages keep the input lengths |
| `Config.ParseOk` | khh/config/type.go:76-106 | `Parse` succeeds exactly when every stage parses; services and journeys are then copied unchanged in order, and each stage is its raw stage's conversion |
| `Config.ParseFirstError` | khh/config/type.go:97-101 | a failed `Parse` returns no configuration and carries the error of the first failing stage |
| `Config.ParseConfig` | khh/config/type.go:76-106 | the three append loops with early return compute exactly `Parse` |
| `Probability.ParseProbability` | khh/config/probability.go:14-28 | an error quotes the input; a value is never negative |
| `Probability.ParseProbabilityAcceptsRegex` | khh/config/probability.go:12-20 | a text is accepted exactly when it matches `^(\d+\.?\d*)\w*%$` |
| `Probability.ParseProbabilityReadsGreedyCapture` | khh/config/probability.go:12-27 | an accepted text splits by the regular expression greedily: `\d+` is followed by a non-digit, `\.?` takes a `.` that follows, and `\d*` is followed by a non-digit; the value is that capture read as a decimal, divided by 100 |
| `Probability.ParseProbabilityValueOfGreedySplit` | khh/config/probability.go:12-27 | every greedy split gives the parsed value, so the reading is unique |
| `Probability.ParseProbabilityExamples` | khh/config/probability.go:27 | `"5%"` gives 0.05 and `"23.4%"` gives 0.234 |
| `Probability.ParseProbabilityAboveOne` | khh/config/probability.go:27 | `"150%"` is accepted and gives 1.5: there is no clamping |
| `Probability.ParseProbabilityIgnoresUnit` | khh/config/probability.go:12-17 | unit characters before `%` are ignored: `"5abc%"` gives 0.05 and `"12a3%"` gives 0.12 |
| `Probability.ParseProbabilityLeadingZeroFraction` | khh/config/probability.go:22-27 | `"2.01%"` gives 0.0201 |
| `Probability.ParseProbabilityRejects` | khh/config/probability.go:16-19 | `""`, `"%"`, `".5%"`, `"abc%"`, `"5"`, `"5% "` and `"1.2.3%"` are rejected with an error quoting the input |
| `Probability.RejectsWithoutLeadingDigit` | khh/config/probability.go:12-19 | a text that does not start with a digit is rejected |
| `Probability.RejectsWithoutPercent` | khh/config/probability.go:12-19 | a text that does not end in `%` is rejected |
| `ConfigLoad.Ext` | khh/config/load.go:90 | the extension is empty when the final path element has no `.`; otherwise it is the suffix from that element's last `.` |
| `ConfigLoad.DecoderFormat` | khh/config/load.go:89-100 | JSON exactly for `.json`, `.json5` and `.jsonc`, YAML exactly for `.yaml` and `.yml`, TOML exactly for `.toml`, and an unsupported-extension error for every other extension, the empty one included |
| `ConfigLoad.EncoderFor` | khh/config/load.go:102-115 | an encoder exactly for the extensions that have a decoder, in the same format; the JSON encoder indents by four spaces and the others keep their default layout; any other extension gives the unsupported-extension error |
| `ConfigLoad.FormatSelectionAgrees` | khh/config/load.go:89-115 | decoder and encoder selection agree; `.json`/`.json5`/`.jsonc` give JSON, `.yaml`/`.yml` YAML and `.toml` TOML; every other extension is unsupported |
| `ConfigLoad.FormatSelectionYml` | khh/config/load.go:93-94 | `conf/khh.yml` selects YAML |
| `ConfigLoad.FormatSelectionJson` | khh/config/load.go:91-92 | `khh.json` selects JSON |
| `ConfigLoad.FormatSelectionFinalElement` | khh/config/load.go:97-98 | `conf.json/khh` has no extension and is unsupported |
| `ConfigLoad.FormatSelectionCaseSensitive` | khh/config/load.go:97-98 | `khh.JSON` is unsupported: extensions are case-sensitive |
| `ConfigLoad.Load` | khh/config/load.go:15-37 | steps in order: stat, open, decoder choice (an unsupported extension fails before decoding), decode (its error passed through), then `Parse`: a valid configuration is returned as it is, and a `Parse` error comes back wrapped as `Invalid` |
| `ConfigLoad.New` | khh/config/load.go:39-87 | the file is created before the extension is checked; success means creation, a supported extension and encoding succeeded, and the example document is written by the encoder the extension selects; a failed encode after a successful creation and extension check gives `EncodeFailed` |
| `ConfigLoad.ExampleProbabilitiesMatchGrammar` | khh/config/load.go:70-79 | the example stage's `"5%"`, `"23.4%"` and `"2.01%"` match the probability grammar |
| `ConfigLoad.ExampleDocumentParses` | khh/config/load.go:50-80 | the example document converts to its configuration, with probabilities 0.05, 0.234 and 0.0201 |
| `ConfigLoad.NewThenLoad` | khh/config/load.go:15-87 | loading a file that `New` wrote gives the example configuration, assuming the decoder reads back what the encoder wrote |

## Left out

- `Compose.Up` and `Compose.Down` (compose.go 120-161) only run the external `docker` process and remove directories. They are process and file-system I/O.
- `rand.Int32` and the name `os.MkdirTemp` picks are parameters. The run id is a `RunId` in [0, 2^31), and the root is a path. Creating the root is modelled as a directory creation that can fail. Like `MkdirAll`, it succeeds when the root already exists, even if it holds files, and it creates missing parents. `os.MkdirTemp` always makes a fresh, empty directory.
- The embedded `journey.Dockerfile` is opaque bytes here: the `baseImage` parameter.
- OS errors are modelled as a set of faulty paths plus the clashes between files and directories. A creation or write at a faulty path fails. Creating a directory where it or an ancestor is a file fails. Writing a file where a directory is fails. A failed call changes nothing.
- The following are not modelled:
  - partial writes;
  - the umask;
  - the mode an existing file keeps when `os.WriteFile` truncates it (the model's write sets the given mode);
  - the need for a parent directory to exist before a write.
- A failed `Compile` returns an error and no path. The program's empty `Compose("")` carries nothing more.
- The wrapped OS error, and the exact `errors.Join` texts, are reduced to tagged error values.
- `float32` arithmetic and `fmt.Sscanf`, including its overflow error path (probability.go 22-25), are not modelled. Probabilities are exact rationals.
- `Probability.Rand` (probability.go 30-32) is randomness.
- `time.ParseDuration` is a partial-function parameter.
- The JSON, YAML and TOML decoders and encoders, and `myTomlDecoder` (type.go 153-156), are library code. `Load` takes their outcomes as a parameter, and `New` takes whether creation and encoding succeeded.
- `Ext` models `filepath.Ext` for `/`-separated paths only.
- `service.Parse` and `journey.Parse` never fail, so the error branches of their loops (type.go 83-85, 91-93) cannot be taken and are not represented.
- `cmd/khh/main.go` is command-line glue and is not part of this model.
