/**
 * The configuration document in its two shapes (type.go): the raw records a
 * decoder fills in, with durations and probabilities still as text, and the
 * typed records the rest of the program uses; and the conversion between
 * them, which walks services, journeys and stages in input order and stops
 * at the first stage whose text does not parse.
 */
module Config {
  import opened Wrappers
  import opened Probability

  datatype RawService = RawService(name: string, image: string)
  datatype RawJourney = RawJourney(name: string, steps: seq<string>)
  datatype RawStage = RawStage(
    name: string,
    clients: int,
    duration: string,
    diskCorruption: string,
    networkFailure: string,
    fullOutage: string)
  datatype RawConfig = RawConfig(services: seq<RawService>, journeys: seq<RawJourney>, stages: seq<RawStage>)

  /** Nanoseconds, as Go's `time.Duration`. */
  type Duration = int

  datatype Service = Service(name: string, image: string)
  datatype Journey = Journey(name: string, steps: seq<string>)
  datatype Stage = Stage(
    name: string,
    clients: int,
    duration: Duration,
    diskCorruption: real,
    networkFailure: real,
    fullOutage: real)
  datatype Config = Config(services: seq<Service>, journeys: seq<Journey>, stages: seq<Stage>)

  /** `time.ParseDuration`, taken as a parameter: `None` where it reports an error. */
  type DurationParser = string -> Option<Duration>

  /** Which field of a stage failed, with the underlying cause. */
  datatype StageError =
    | BadDuration(text: string)
    | BadDiskCorruption(cause: ProbabilityError)
    | BadNetworkFailure(cause: ProbabilityError)
    | BadFullOutage(cause: ProbabilityError)

  datatype ConfigError = StageFailed(cause: StageError)

  /** `service.Parse`: total, a field-for-field copy. */
  function ParseService(s: RawService): (r: Service)
    ensures r.name == s.name && r.image == s.image
  {
    Service(s.name, s.image)
  }

  /** `journey.Parse`: total, the steps kept in order. */
  function ParseJourney(j: RawJourney): (r: Journey)
    ensures r.name == j.name && r.steps == j.steps
  {
    Journey(j.name, j.steps)
  }

  /**
   * `stage.Parse`: duration, then disk corruption, then network failure,
   * then full outage; the first field that fails decides the error and the
   * fields after it are not looked at.
   */
  function ParseStage(s: RawStage, parseDuration: DurationParser): (r: Result<Stage, StageError>)
    ensures r.Ok? <==> && parseDuration(s.duration).Some?
                       && ParseProbability(s.diskCorruption).Ok?
                       && ParseProbability(s.networkFailure).Ok?
                       && ParseProbability(s.fullOutage).Ok?
    ensures r.Ok? ==> && r.value.name == s.name && r.value.clients == s.clients
                      && r.value.duration == parseDuration(s.duration).value
                      && r.value.diskCorruption == ParseProbability(s.diskCorruption).value
                      && r.value.networkFailure == ParseProbability(s.networkFailure).value
                      && r.value.fullOutage == ParseProbability(s.fullOutage).value
    ensures parseDuration(s.duration).None? ==> r == Err(BadDuration(s.duration))
    ensures parseDuration(s.duration).Some? && ParseProbability(s.diskCorruption).Err? ==>
              r == Err(BadDiskCorruption(InvalidProbability(s.diskCorruption)))
    ensures && parseDuration(s.duration).Some? && ParseProbability(s.diskCorruption).Ok?
            && ParseProbability(s.networkFailure).Err? ==>
              r == Err(BadNetworkFailure(InvalidProbability(s.networkFailure)))
    ensures && parseDuration(s.duration).Some? && ParseProbability(s.diskCorruption).Ok?
            && ParseProbability(s.networkFailure).Ok? && ParseProbability(s.fullOutage).Err? ==>
              r == Err(BadFullOutage(InvalidProbability(s.fullOutage)))
  {
    match parseDuration(s.duration)
    case None => Err(BadDuration(s.duration))
    case Some(duration) =>
      match ParseProbability(s.diskCorruption)
      case Err(e) => Err(BadDiskCorruption(e))
      case Ok(diskCorruption) =>
        match ParseProbability(s.networkFailure)
        case Err(e) => Err(BadNetworkFailure(e))
        case Ok(networkFailure) =>
          match ParseProbability(s.fullOutage)
          case Err(e) => Err(BadFullOutage(e))
          case Ok(fullOutage) =>
            Ok(Stage(s.name, s.clients, duration, diskCorruption, networkFailure, fullOutage))
  }

  /**
   * An order-preserving, fail-fast conversion of a sequence: elements are
   * converted in order and the first failure is the result.
   */
  function ConvertAll<A, B, E>(xs: seq<A>, convert: A -> Result<B, E>): (r: Result<seq<B>, E>)
    ensures r.Ok? ==> |r.value| == |xs|
  {
    if xs == [] then Ok([])
    else
      match ConvertAll(xs[..|xs| - 1], convert)
      case Err(e) => Err(e)
      case Ok(done) =>
        match convert(xs[|xs| - 1])
        case Err(e) => Err(e)
        case Ok(y) => Ok(done + [y])
  }

  /** All-or-nothing: the conversion succeeds exactly when each element converts, each to its own result. */
  lemma {:induction false} ConvertAllOk<A, B, E>(xs: seq<A>, convert: A -> Result<B, E>)
    ensures ConvertAll(xs, convert).Ok? <==> forall i :: 0 <= i < |xs| ==> convert(xs[i]).Ok?
    ensures ConvertAll(xs, convert).Ok? ==>
              forall i :: 0 <= i < |xs| ==> convert(xs[i]) == Ok(ConvertAll(xs, convert).value[i])
  {
    if xs != [] {
      var init := xs[..|xs| - 1];
      ConvertAllOk(init, convert);
      assert forall i :: 0 <= i < |init| ==> init[i] == xs[i];
    }
  }

  /** Fail-fast: the error is that of the first element, in input order, that fails. */
  lemma {:induction false} ConvertAllFirstError<A, B, E>(xs: seq<A>, convert: A -> Result<B, E>)
    requires ConvertAll(xs, convert).Err?
    ensures exists k :: && 0 <= k < |xs|
                        && convert(xs[k]) == Err(ConvertAll(xs, convert).error)
                        && forall i :: 0 <= i < k ==> convert(xs[i]).Ok?
  {
    var init := xs[..|xs| - 1];
    assert forall i :: 0 <= i < |init| ==> init[i] == xs[i];
    if ConvertAll(init, convert).Err? {
      ConvertAllFirstError(init, convert);
      var k :| && 0 <= k < |init|
               && convert(init[k]) == Err(ConvertAll(init, convert).error)
               && forall i :: 0 <= i < k ==> convert(init[i]).Ok?;
      assert convert(xs[k]) == Err(ConvertAll(xs, convert).error);
    } else {
      ConvertAllOk(init, convert);
    }
  }

  /** Once a prefix fails, the elements after it are not looked at. */
  lemma {:induction false} ConvertAllPrefixError<A, B, E>(xs: seq<A>, n: nat, convert: A -> Result<B, E>)
    requires n <= |xs|
    requires ConvertAll(xs[..n], convert).Err?
    ensures ConvertAll(xs, convert) == ConvertAll(xs[..n], convert)
    decreases |xs|
  {
    if n < |xs| {
      var init := xs[..|xs| - 1];
      assert init[..n] == xs[..n];
      ConvertAllPrefixError(init, n, convert);
    } else {
      assert xs[..n] == xs;
    }
  }

  /** `stage.Parse` with the duration parser fixed, as the conversion the stage loop applies. */
  function StageParser(parseDuration: DurationParser): RawStage -> Result<Stage, StageError>
  {
    s => ParseStage(s, parseDuration)
  }

  /** The stage loop of `config.Parse`. */
  function ParseStages(stages: seq<RawStage>, parseDuration: DurationParser): (r: Result<seq<Stage>, StageError>)
  {
    ConvertAll(stages, StageParser(parseDuration))
  }

  function ParseServices(services: seq<RawService>): (r: seq<Service>)
  {
    seq(|services|, i requires 0 <= i < |services| => ParseService(services[i]))
  }

  function ParseJourneys(journeys: seq<RawJourney>): (r: seq<Journey>)
  {
    seq(|journeys|, i requires 0 <= i < |journeys| => ParseJourney(journeys[i]))
  }

  /** `config.Parse` as a value: all or nothing, never a partly filled configuration. */
  function Parse(raw: RawConfig, parseDuration: DurationParser): (r: Result<Config, ConfigError>)
    ensures r.Ok? ==> && |r.value.services| == |raw.services|
                      && |r.value.journeys| == |raw.journeys|
                      && |r.value.stages| == |raw.stages|
  {
    match ParseStages(raw.stages, parseDuration)
    case Err(e) => Err(StageFailed(e))
    case Ok(stages) => Ok(Config(ParseServices(raw.services), ParseJourneys(raw.journeys), stages))
  }

  /**
   * `config.Parse` fails exactly when some stage fails; on success every
   * sequence keeps the input's order, services and journeys copied unchanged.
   */
  lemma ParseOk(raw: RawConfig, parseDuration: DurationParser)
    ensures Parse(raw, parseDuration).Ok? <==>
              forall i :: 0 <= i < |raw.stages| ==> ParseStage(raw.stages[i], parseDuration).Ok?
    ensures Parse(raw, parseDuration).Ok? ==>
              var c := Parse(raw, parseDuration).value;
              && (forall i :: 0 <= i < |raw.services| ==>
                    c.services[i] == Service(raw.services[i].name, raw.services[i].image))
              && (forall i :: 0 <= i < |raw.journeys| ==>
                    c.journeys[i] == Journey(raw.journeys[i].name, raw.journeys[i].steps))
              && (forall i :: 0 <= i < |raw.stages| ==>
                    ParseStage(raw.stages[i], parseDuration) == Ok(c.stages[i]))
  {
    ConvertAllOk(raw.stages, StageParser(parseDuration));
  }

  /** On failure the error is that of the first failing stage, wrapped once. */
  lemma ParseFirstError(raw: RawConfig, parseDuration: DurationParser)
    requires Parse(raw, parseDuration).Err?
    ensures exists k :: && 0 <= k < |raw.stages|
                        && ParseStage(raw.stages[k], parseDuration).Err?
                        && Parse(raw, parseDuration).error == StageFailed(ParseStage(raw.stages[k], parseDuration).error)
                        && forall i :: 0 <= i < k ==> ParseStage(raw.stages[i], parseDuration).Ok?
  {
    ConvertAllFirstError(raw.stages, StageParser(parseDuration));
  }

  /**
   * `config.Parse` as the program runs it: three loops appending to the
   * result, returning at the first stage that fails.
   */
  method ParseConfig(raw: RawConfig, parseDuration: DurationParser) returns (r: Result<Config, ConfigError>)
    ensures r == Parse(raw, parseDuration)
  {
    var services: seq<Service> := [];
    for i := 0 to |raw.services|
      invariant services == ParseServices(raw.services[..i])
    {
      assert raw.services[..i + 1] == raw.services[..i] + [raw.services[i]];
      services := services + [ParseService(raw.services[i])];
    }
    assert raw.services[..|raw.services|] == raw.services;

    var journeys: seq<Journey> := [];
    for i := 0 to |raw.journeys|
      invariant journeys == ParseJourneys(raw.journeys[..i])
    {
      assert raw.journeys[..i + 1] == raw.journeys[..i] + [raw.journeys[i]];
      journeys := journeys + [ParseJourney(raw.journeys[i])];
    }
    assert raw.journeys[..|raw.journeys|] == raw.journeys;

    var stages: seq<Stage> := [];
    for i := 0 to |raw.stages|
      invariant ParseStages(raw.stages[..i], parseDuration) == Ok(stages)
    {
      assert raw.stages[..i + 1][..i] == raw.stages[..i];
      match ParseStage(raw.stages[i], parseDuration)
      case Err(e) =>
        assert ParseStages(raw.stages[..i + 1], parseDuration) == Err(e);
        ConvertAllPrefixError(raw.stages, i + 1, StageParser(parseDuration));
        return Err(StageFailed(e));
      case Ok(stage) =>
        stages := stages + [stage];
    }
    assert raw.stages[..|raw.stages|] == raw.stages;
    r := Ok(Config(services, journeys, stages));
  }
}
