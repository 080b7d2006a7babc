/**
 * Loading and scaffolding a configuration file (load.go): the format is
 * chosen from the file extension, the document is decoded into the raw
 * shape and then converted by `Parse`. The decoders, encoders and file
 * calls are library and operating-system code; here they are parameters
 * that say how each step turned out.
 */
module ConfigLoad {
  import opened Wrappers
  import opened Strings
  import opened Probability
  import opened Config

  datatype Format = Json | Yaml | Toml

  /** `filepath.Ext` scanning back from position `i`: the suffix from the last `.` in the final element. */
  function ExtFrom(path: string, i: nat): (e: string)
    requires i <= |path|
    ensures |e| <= |path|
    ensures e != [] ==> |path| - |e| < i && e == path[|path| - |e|..] && e[0] == '.'
    ensures e != [] ==> forall x :: |path| - |e| < x < i ==> path[x] != '.' && path[x] != '/'
    ensures e == [] ==> forall x :: FinalElementStart(path, i) <= x < i ==> path[x] != '.'
    decreases i
  {
    if i == 0 || path[i - 1] == '/' then ""
    else if path[i - 1] == '.' then path[i - 1..]
    else ExtFrom(path, i - 1)
  }

  /** Where the final path element before position `i` starts: just after the last `/`. */
  function FinalElementStart(path: string, i: nat): (b: nat)
    requires i <= |path|
    ensures b <= i && (b == 0 || path[b - 1] == '/')
    ensures forall x :: b <= x < i ==> path[x] != '/'
    decreases i
  {
    if i == 0 || path[i - 1] == '/' then i else FinalElementStart(path, i - 1)
  }

  /**
   * `filepath.Ext` on a `/`-separated path: empty when the final element has
   * no `.`, and otherwise the suffix that starts at its last `.`.
   */
  function Ext(path: string): (e: string)
    ensures e == [] ==> forall x :: FinalElementStart(path, |path|) <= x < |path| ==> path[x] != '.'
    ensures |e| <= |path|
    ensures e != [] ==> && e == path[|path| - |e|..] && e[0] == '.'
                        && forall x :: 1 <= x < |e| ==> e[x] != '.' && e[x] != '/'
  {
    var e := ExtFrom(path, |path|);
    e
  }

  datatype FormatError = UnsupportedExtension

  /** `getDecoderFromExtension`: a case-sensitive switch on the extension. */
  function DecoderFormat(path: string): (r: Result<Format, FormatError>)
    ensures r == Ok(Json) <==> Ext(path) in JsonExtensions
    ensures r == Ok(Yaml) <==> Ext(path) in YamlExtensions
    ensures r == Ok(Toml) <==> Ext(path) in TomlExtensions
    ensures r == Err(UnsupportedExtension) <==> Ext(path) !in JsonExtensions + YamlExtensions + TomlExtensions
  {
    var ext := Ext(path);
    if ext == ".json" || ext == ".json5" || ext == ".jsonc" then Ok(Json)
    else if ext == ".yaml" || ext == ".yml" then Ok(Yaml)
    else if ext == ".toml" then Ok(Toml)
    else Err(UnsupportedExtension)
  }

  /**
   * An encoder: its format and the indentation it is set to use per level;
   * `""` leaves the library's default layout.
   */
  datatype Encoder = Encoder(format: Format, indent: string)

  /** `getEncoderFromExtension`: the same switch; the JSON encoder indents by four spaces. */
  function EncoderFor(path: string): (r: Result<Encoder, FormatError>)
    ensures r.Ok? <==> DecoderFormat(path).Ok?
    ensures r.Ok? ==> r.value.format == DecoderFormat(path).value
    ensures r.Err? ==> r.error == UnsupportedExtension
    ensures r.Ok? ==> r.value.indent == (if r.value.format == Json then "    " else "")
  {
    var ext := Ext(path);
    if ext == ".json" || ext == ".json5" || ext == ".jsonc" then Ok(Encoder(Json, "    "))
    else if ext == ".yaml" || ext == ".yml" then Ok(Encoder(Yaml, ""))
    else if ext == ".toml" then Ok(Encoder(Toml, ""))
    else Err(UnsupportedExtension)
  }

  const JsonExtensions: set<string> := {".json", ".json5", ".jsonc"}
  const YamlExtensions: set<string> := {".yaml", ".yml"}
  const TomlExtensions: set<string> := {".toml"}

  /** Decoding and encoding accept the same extensions and map each to the same format. */
  lemma FormatSelectionAgrees(path: string)
    ensures DecoderFormat(path).Ok? <==> EncoderFor(path).Ok?
    ensures DecoderFormat(path).Ok? ==> DecoderFormat(path).value == EncoderFor(path).value.format
    ensures DecoderFormat(path) == Ok(Json) <==> Ext(path) in JsonExtensions
    ensures DecoderFormat(path) == Ok(Yaml) <==> Ext(path) in YamlExtensions
    ensures DecoderFormat(path) == Ok(Toml) <==> Ext(path) in TomlExtensions
    ensures DecoderFormat(path).Err? <==> Ext(path) !in JsonExtensions + YamlExtensions + TomlExtensions
  {
  }

  /** A `.yml` extension is found after the last `/`. */
  lemma FormatSelectionYml()
    ensures DecoderFormat("conf/khh.yml") == Ok(Yaml)
  {
    var p := "conf/khh.yml";
    assert Ext(p) == ".yml" by {
      assert ExtFrom(p, 9) == p[8..] == ".yml";
      assert ExtFrom(p, 10) == ExtFrom(p, 9);
      assert ExtFrom(p, 11) == ExtFrom(p, 10);
      assert ExtFrom(p, 12) == ExtFrom(p, 11);
    }
  }

  /** A `.` in a directory name is no extension: only the final element counts. */
  lemma FormatSelectionFinalElement()
    ensures DecoderFormat("conf.json/khh") == Err(UnsupportedExtension)
  {
    var p := "conf.json/khh";
    assert Ext(p) == "" by {
      assert ExtFrom(p, 10) == "";
      assert ExtFrom(p, 11) == ExtFrom(p, 10);
      assert ExtFrom(p, 12) == ExtFrom(p, 11);
      assert ExtFrom(p, 13) == ExtFrom(p, 12);
    }
  }

  lemma FormatSelectionJson()
    ensures DecoderFormat("khh.json") == Ok(Json)
  {
    var p := "khh.json";
    assert Ext(p) == ".json" by {
      assert ExtFrom(p, 4) == p[3..] == ".json";
      assert ExtFrom(p, 5) == ExtFrom(p, 4);
      assert ExtFrom(p, 6) == ExtFrom(p, 5);
      assert ExtFrom(p, 7) == ExtFrom(p, 6);
      assert ExtFrom(p, 8) == ExtFrom(p, 7);
    }
  }

  /** Extensions are case-sensitive: `.JSON` is not `.json`. */
  lemma FormatSelectionCaseSensitive()
    ensures DecoderFormat("khh.JSON") == Err(UnsupportedExtension)
  {
    var p := "khh.JSON";
    assert Ext(p) == ".JSON" by {
      assert ExtFrom(p, 4) == p[3..] == ".JSON";
      assert ExtFrom(p, 5) == ExtFrom(p, 4);
      assert ExtFrom(p, 6) == ExtFrom(p, 5);
      assert ExtFrom(p, 7) == ExtFrom(p, 6);
      assert ExtFrom(p, 8) == ExtFrom(p, 7);
    }
  }

  // ---------------------------------------------------------------------
  // Load

  /**
   * What the file system and the decoders do with the path: it does not
   * exist, it exists but cannot be opened, or it can be read and decodes
   * (or fails to decode, with the decoder's own message) in each format.
   */
  datatype FileAccess =
    | Missing
    | Unreadable
    | Readable(decode: Format -> Result<RawConfig, string>)

  datatype LoadError =
    | StatFailed(path: string)
    | OpenFailed(path: string)
    | NoDecoder(path: string, cause: FormatError)
    | DecodeFailed(message: string)
    | Invalid(reason: ConfigError)

  /**
   * `Load`: stat, open, choose the decoder by extension, decode, then convert.
   * Decoder errors pass through unwrapped; an unsupported extension is
   * reported before anything is decoded; after a successful decode the
   * result is exactly that of `Parse`.
   */
  function Load(path: string, file: FileAccess, parseDuration: DurationParser): (r: Result<Config, LoadError>)
    ensures file.Missing? ==> r == Err(StatFailed(path))
    ensures file.Unreadable? ==> r == Err(OpenFailed(path))
    ensures file.Readable? && DecoderFormat(path).Err? ==> r == Err(NoDecoder(path, UnsupportedExtension))
    ensures file.Readable? && DecoderFormat(path).Ok? && file.decode(DecoderFormat(path).value).Err? ==>
              r == Err(DecodeFailed(file.decode(DecoderFormat(path).value).error))
    ensures r.Ok? ==> && file.Readable? && DecoderFormat(path).Ok?
                      && file.decode(DecoderFormat(path).value).Ok?
                      && Parse(file.decode(DecoderFormat(path).value).value, parseDuration) == Ok(r.value)
    ensures file.Readable? && DecoderFormat(path).Ok? && file.decode(DecoderFormat(path).value).Ok? ==>
              var parsed := Parse(file.decode(DecoderFormat(path).value).value, parseDuration);
              && (parsed.Ok? ==> r == Ok(parsed.value))
              && (parsed.Err? ==> r == Err(Invalid(parsed.error)))
  {
    match file
    case Missing => Err(StatFailed(path))
    case Unreadable => Err(OpenFailed(path))
    case Readable(decode) =>
      match DecoderFormat(path)
      case Err(e) => Err(NoDecoder(path, e))
      case Ok(format) =>
        match decode(format)
        case Err(message) => Err(DecodeFailed(message))
        case Ok(raw) =>
          match Parse(raw, parseDuration)
          case Err(e) => Err(Invalid(e))
          case Ok(config) => Ok(config)
  }

  // ---------------------------------------------------------------------
  // New

  /** The document `New` writes: one service, a one-step and a two-step journey, one stage. */
  const ExampleDocument: RawConfig := RawConfig(
    [RawService("nginx_service", "nginx:latest")],
    [ RawJourney("get index", ["GET http://nginx_service/ --status 200"]),
      RawJourney("get unknown", [ "http get http://nginx_service/unknown --status 404",
                                  "http head http://nginx_service/unknown --status 404"])],
    [RawStage("default", 1, "1s", "5%", "23.4%", "2.01%")])

  datatype NewError =
    | CreateFailed(path: string)
    | NoEncoder(path: string, cause: FormatError)
    | EncodeFailed(path: string)

  /** What a successful `New` has written: the example document, in the format the extension selects. */
  datatype Written = Written(encoder: Encoder, document: RawConfig)

  /**
   * `New`: create (or truncate) the file, choose the encoder by extension,
   * encode the example document. The file is created before the extension
   * is checked, so an unsupported extension leaves an empty file behind.
   */
  function New(path: string, created: bool, encoded: bool): (r: Result<Written, NewError>)
    ensures !created ==> r == Err(CreateFailed(path))
    ensures created && EncoderFor(path).Err? ==> r == Err(NoEncoder(path, UnsupportedExtension))
    ensures created && EncoderFor(path).Ok? && !encoded ==> r == Err(EncodeFailed(path))
    ensures r.Ok? <==> created && EncoderFor(path).Ok? && encoded
    ensures r.Ok? ==> r.value == Written(EncoderFor(path).value, ExampleDocument)
  {
    if !created then Err(CreateFailed(path))
    else
      match EncoderFor(path)
      case Err(e) => Err(NoEncoder(path, e))
      case Ok(encoder) => if encoded then Ok(Written(encoder, ExampleDocument)) else Err(EncodeFailed(path))
  }

  /** The three probability texts of the example stage all match `^(\d+\.?\d*)\w*%$`. */
  lemma ExampleProbabilitiesMatchGrammar()
    ensures MatchesProbabilityRegex("5%")
    ensures MatchesProbabilityRegex("23.4%")
    ensures MatchesProbabilityRegex("2.01%")
  {
    ParseProbabilityExamples();
    ParseProbabilityLeadingZeroFraction();
    ParseProbabilityAcceptsRegex("5%");
    ParseProbabilityAcceptsRegex("23.4%");
    ParseProbabilityAcceptsRegex("2.01%");
  }

  /** The example document converts to the configuration it describes, probabilities as fractions. */
  lemma ExampleDocumentParses(parseDuration: DurationParser)
    requires parseDuration("1s").Some?
    ensures Parse(ExampleDocument, parseDuration) == Ok(ExampleConfig(parseDuration("1s").value))
  {
    var raw := ExampleDocument;
    var stage := ExampleConfig(parseDuration("1s").value).stages[0];
    ExampleStageParses(parseDuration);
    ConvertAllOk(raw.stages, StageParser(parseDuration));
    assert ParseStages(raw.stages, parseDuration).value[0] == stage;
    assert |ParseStages(raw.stages, parseDuration).value| == 1;
    assert ParseStages(raw.stages, parseDuration).value == [stage];
    ExampleEntriesParse(parseDuration("1s").value);
  }

  lemma ExampleEntriesParse(second: Duration)
    ensures ParseServices(ExampleDocument.services) == ExampleConfig(second).services
    ensures ParseJourneys(ExampleDocument.journeys) == ExampleConfig(second).journeys
  {
    var journeys := ParseJourneys(ExampleDocument.journeys);
    assert journeys[0] == ExampleConfig(second).journeys[0];
    assert journeys[1] == ExampleConfig(second).journeys[1];
  }

  lemma ExampleStageParses(parseDuration: DurationParser)
    requires parseDuration("1s").Some?
    ensures ParseStage(ExampleDocument.stages[0], parseDuration) == Ok(ExampleConfig(parseDuration("1s").value).stages[0])
  {
    ParseProbabilityExamples();
    ParseProbabilityLeadingZeroFraction();
  }

  /** The configuration `New`'s document stands for, given what `"1s"` parses to. */
  function ExampleConfig(second: Duration): Config
  {
    Config(
      [Service("nginx_service", "nginx:latest")],
      [ Journey("get index", ["GET http://nginx_service/ --status 200"]),
        Journey("get unknown", [ "http get http://nginx_service/unknown --status 404",
                                 "http head http://nginx_service/unknown --status 404"])],
      [Stage("default", 1, second, 0.05, 0.234, 0.0201)])
  }

  /**
   * Creating a file and loading it back gives the example configuration,
   * in every supported format, provided the decoder reads back what the
   * encoder wrote and the duration `"1s"` parses.
   */
  lemma NewThenLoad(path: string, decode: Format -> Result<RawConfig, string>, parseDuration: DurationParser)
    requires New(path, true, true).Ok?
    requires decode(New(path, true, true).value.encoder.format) == Ok(ExampleDocument)
    requires parseDuration("1s").Some?
    ensures Load(path, Readable(decode), parseDuration) == Ok(ExampleConfig(parseDuration("1s").value))
  {
    FormatSelectionAgrees(path);
    ExampleDocumentParses(parseDuration);
  }
}
