/** The run configuration: the static parameters of `EnergyAwareBaseStationSimulator`
    and the validation of configuration-file lines that sets them. A line reaches this
    model already split into whitespace-separated fields, and number parsing is an
    abstract partial function (`None` for a `NumberFormatException`). */
module Configuration {
  import opened Outcomes

  datatype Scheme = Single | Multiple | Coalescing
  datatype TaskDistribution = DeterministicTasks | Poisson | Pareto | DynPoisson
  datatype ServiceDistribution = DeterministicService | Uniform | Exponential

  /** The configuration-file word for each choice. */
  function SchemeName(s: Scheme): string
  {
    match s
    case Single => "single"
    case Multiple => "multiple"
    case Coalescing => "coalescing"
  }

  function TaskDistributionName(d: TaskDistribution): string
  {
    match d
    case DeterministicTasks => "deterministic"
    case Poisson => "poisson"
    case Pareto => "pareto"
    case DynPoisson => "dynpoisson"
  }

  function ServiceDistributionName(d: ServiceDistribution): string
  {
    match d
    case DeterministicService => "deterministic"
    case Uniform => "uniform"
    case Exponential => "exponential"
  }

  /** The choice a configuration-file word names, if any. */
  function SchemeNamed(name: string): (r: Option<Scheme>)
    ensures r.Some? <==> name in {"single", "multiple", "coalescing"}
    ensures r.Some? ==> SchemeName(r.value) == name
  {
    if name == "single" then Some(Single)
    else if name == "multiple" then Some(Multiple)
    else if name == "coalescing" then Some(Coalescing)
    else None
  }

  function TaskDistributionNamed(name: string): (r: Option<TaskDistribution>)
    ensures r.Some? <==> name in {"deterministic", "poisson", "pareto", "dynpoisson"}
    ensures r.Some? ==> TaskDistributionName(r.value) == name
  {
    if name == "deterministic" then Some(DeterministicTasks)
    else if name == "poisson" then Some(Poisson)
    else if name == "pareto" then Some(Pareto)
    else if name == "dynpoisson" then Some(DynPoisson)
    else None
  }

  function ServiceDistributionNamed(name: string): (r: Option<ServiceDistribution>)
    ensures r.Some? <==> name in {"deterministic", "uniform", "exponential"}
    ensures r.Some? ==> ServiceDistributionName(r.value) == name
  {
    if name == "deterministic" then Some(DeterministicService)
    else if name == "uniform" then Some(Uniform)
    else if name == "exponential" then Some(Exponential)
    else None
  }

  datatype Config = Config(
    simulationLength: real,
    // task parameters
    taskDistribution: TaskDistribution,
    arrivalRate: real,
    alphaPareto: real,
    rateStep: real,
    timeStep: real,
    serviceDistribution: ServiceDistribution,
    serviceTime: real,
    uniformRange: real,
    // base station parameters
    activeConsumption: real,
    idleConsumption: real,
    sleepConsumption: real,
    transitionConsumption: real,
    activeToSleepT: real,
    sleepToActiveT: real,
    // energy management parameters
    scheme: Scheme,
    inactivityT: real,
    sleepToActiveQth: int,
    sleepingT: real,
    sleepToActiveTth: real,
    dynamicQth: bool,
    targetDelay: real)

  /** The values the program starts with; the simulation length comes from the command
      line (10 seconds unless `-l` gives another). */
  function Defaults(simulationLength: real): Config
  {
    Config(simulationLength,
           DeterministicTasks, 0.25, 2.5, 0.05, 3600.0,
           DeterministicService, 1.0, 1.0,
           1.0, 0.7, 0.1, 0.7, 0.0, 5.0,
           Coalescing, 2.0, 1, 5.0, 0.0, false, 0.0)
  }

  /** What every accepted configuration satisfies: the rules the line checks enforce
      and the defaults already meet. */
  ghost predicate WellFormed(c: Config)
  {
    && c.arrivalRate > 0.0
    && (c.taskDistribution == Pareto ==> c.alphaPareto > 1.0)
    && (c.taskDistribution == DynPoisson ==> c.timeStep > 0.0)
    && c.serviceTime > 0.0
    && (c.serviceDistribution == Uniform ==>
          c.uniformRange > 0.0 && c.serviceTime - c.uniformRange / 2.0 > 0.0)
    && 0.0 <= c.sleepConsumption <= c.idleConsumption <= c.activeConsumption
    && c.transitionConsumption >= 0.0
    && TimingOk(c)
  }

  /** The part of an accepted configuration the base station relies on: non-negative
      delays and timers, a positive sleeping period and a positive quantity threshold. */
  ghost predicate TimingOk(c: Config)
  {
    && c.activeToSleepT >= 0.0 && c.sleepToActiveT >= 0.0
    && c.inactivityT >= 0.0
    && c.sleepToActiveQth >= 1
    && c.sleepingT > 0.0
    && c.sleepToActiveTth >= 0.0
    && c.targetDelay >= 0.0
  }

  /** The defaults are accepted whatever the simulation length. */
  lemma DefaultsWellFormed(simulationLength: real)
    ensures WellFormed(Defaults(simulationLength))
  {
  }

  /** A line starting with ';' is a comment. Splitting keeps an empty first field when the
      line starts with white space, so the first field starts with ';' exactly when the
      line does. */
  predicate IsComment(fields: seq<string>)
  {
    |fields| > 0 && |fields[0]| > 0 && fields[0][0] == ';'
  }

  /** `fields[i]`; a missing field throws an uncaught index exception, which also ends
      the run with status 1. */
  function FieldAt(fields: seq<string>, i: nat): Outcome<string>
  {
    if i < |fields| then Ok(fields[i]) else Abort(MissingField)
  }

  function RealAt(fields: seq<string>, i: nat, parseReal: string -> Option<real>, message: string): Outcome<real>
  {
    var text :- FieldAt(fields, i);
    match parseReal(text)
    case Some(v) => Ok(v)
    case None => Abort(ConfigError(message))
  }

  /** A recognised word, or the run ends with the given message. */
  function Named<T>(choice: Option<T>, message: string): Outcome<T>
  {
    match choice
    case Some(v) => Ok(v)
    case None => Abort(ConfigError(message))
  }

  function IntAt(fields: seq<string>, i: nat, parseInt: string -> Option<int>, message: string): Outcome<int>
  {
    var text :- FieldAt(fields, i);
    match parseInt(text)
    case Some(v) => Ok(v)
    case None => Abort(ConfigError(message))
  }

  /** A `TASKS` line: a known distribution, a positive rate, for `pareto` an alpha above 1
      and for `dynpoisson` a rate step and a positive time step. */
  function TasksLine(c: Config, f: seq<string>, parseReal: string -> Option<real>): (r: Outcome<Config>)
    ensures r.Ok? ==> r.value.arrivalRate > 0.0
    ensures r.Ok? && r.value.taskDistribution == Pareto ==> r.value.alphaPareto > 1.0
    ensures r.Ok? && r.value.taskDistribution == DynPoisson ==> r.value.timeStep > 0.0
    // the stored values are the parsed fields
    ensures r.Ok? ==> |f| > 2 && f[1] == TaskDistributionName(r.value.taskDistribution)
                      && parseReal(f[2]) == Some(r.value.arrivalRate)
    ensures r.Ok? && r.value.taskDistribution == Pareto ==>
      |f| > 3 && parseReal(f[3]) == Some(r.value.alphaPareto)
    ensures r.Ok? && r.value.taskDistribution != Pareto ==> r.value.alphaPareto == c.alphaPareto
    ensures r.Ok? && r.value.taskDistribution == DynPoisson ==>
      |f| > 4 && parseReal(f[3]) == Some(r.value.rateStep) && parseReal(f[4]) == Some(r.value.timeStep)
    ensures r.Ok? && r.value.taskDistribution != DynPoisson ==>
      r.value.rateStep == c.rateStep && r.value.timeStep == c.timeStep
    // a line that meets every rule is accepted
    ensures |f| > 2 && f[1] in {"deterministic", "poisson", "pareto", "dynpoisson"}
            && parseReal(f[2]).Some? && parseReal(f[2]).value > 0.0
            && (f[1] == "pareto" ==> |f| > 3 && parseReal(f[3]).Some? && parseReal(f[3]).value > 1.0)
            && (f[1] == "dynpoisson" ==> |f| > 4 && parseReal(f[3]).Some?
                                         && parseReal(f[4]).Some? && parseReal(f[4]).value > 0.0)
            ==> r.Ok?
    ensures r.Ok? ==> r.value.(taskDistribution := c.taskDistribution, arrivalRate := c.arrivalRate,
                                alphaPareto := c.alphaPareto, rateStep := c.rateStep, timeStep := c.timeStep) == c
    ensures WellFormed(c) && r.Ok? ==> WellFormed(r.value)
  {
    var name :- FieldAt(f, 1);
    var dist :- Named(TaskDistributionNamed(name), "Config file: invalid task distribution!");
    var rate :- RealAt(f, 2, parseReal, "Config file: invalid task arrival rate!");
    var _ :- Need(rate > 0.0, ConfigError("Config file: invalid task arrival rate!"));
    var c := c.(taskDistribution := dist, arrivalRate := rate);
    if dist == Pareto then ParetoParams(c, f, parseReal)
    else if dist == DynPoisson then DynPoissonParams(c, f, parseReal)
    else Ok(c)
  }

  /** The shape parameter of a `pareto` TASKS line (field 3), above 1. */
  function ParetoParams(c: Config, f: seq<string>, parseReal: string -> Option<real>): (r: Outcome<Config>)
    ensures r.Ok? ==> r.value == c.(alphaPareto := r.value.alphaPareto) && r.value.alphaPareto > 1.0
    ensures r.Ok? ==> |f| > 3 && parseReal(f[3]) == Some(r.value.alphaPareto)
    ensures |f| > 3 && parseReal(f[3]).Some? && parseReal(f[3]).value > 1.0 ==> r.Ok?
  {
    var alpha :- RealAt(f, 3, parseReal, "Config file: invalid alpha pareto parameter!");
    var _ :- Need(alpha > 1.0, ConfigError("Config file: invalid alpha pareto parameter!"));
    Ok(c.(alphaPareto := alpha))
  }

  /** The rate step and the positive time step of a `dynpoisson` TASKS line (fields 3
      and 4). The rate step is not checked. */
  function DynPoissonParams(c: Config, f: seq<string>, parseReal: string -> Option<real>): (r: Outcome<Config>)
    ensures r.Ok? ==> r.value == c.(rateStep := r.value.rateStep, timeStep := r.value.timeStep)
                      && r.value.timeStep > 0.0
    ensures r.Ok? ==> |f| > 4 && parseReal(f[3]) == Some(r.value.rateStep)
                      && parseReal(f[4]) == Some(r.value.timeStep)
    ensures |f| > 4 && parseReal(f[3]).Some? && parseReal(f[4]).Some? && parseReal(f[4]).value > 0.0
            ==> r.Ok?
  {
    var step :- RealAt(f, 3, parseReal, "Config file: invalid rate step parameter!");
    var period :- RealAt(f, 4, parseReal, "Config file: invalid time step parameter!");
    var _ :- Need(period > 0.0, ConfigError("Config file: invalid time step parameter!"));
    Ok(c.(rateStep := step, timeStep := period))
  }

  /** A `SERVICE` line: a known distribution and a positive service time; for `uniform` a
      positive range whose half is below the service time. */
  function ServiceLine(c: Config, f: seq<string>, parseReal: string -> Option<real>): (r: Outcome<Config>)
    ensures r.Ok? ==> r.value.serviceTime > 0.0
    ensures r.Ok? && r.value.serviceDistribution == Uniform ==>
      r.value.uniformRange > 0.0 && r.value.serviceTime - r.value.uniformRange / 2.0 > 0.0
    // the stored values are the parsed fields
    ensures r.Ok? ==> |f| > 2 && f[1] == ServiceDistributionName(r.value.serviceDistribution)
                      && parseReal(f[2]) == Some(r.value.serviceTime)
    ensures r.Ok? && r.value.serviceDistribution == Uniform ==>
      |f| > 3 && parseReal(f[3]) == Some(r.value.uniformRange)
    ensures r.Ok? && r.value.serviceDistribution != Uniform ==> r.value.uniformRange == c.uniformRange
    // a line that meets every rule is accepted
    ensures |f| > 2 && f[1] in {"deterministic", "uniform", "exponential"}
            && parseReal(f[2]).Some? && parseReal(f[2]).value > 0.0
            && (f[1] == "uniform" ==> |f| > 3 && parseReal(f[3]).Some? && parseReal(f[3]).value > 0.0
                                      && parseReal(f[2]).value - parseReal(f[3]).value / 2.0 > 0.0)
            ==> r.Ok?
    ensures r.Ok? ==> r.value.(serviceDistribution := c.serviceDistribution, serviceTime := c.serviceTime,
                                uniformRange := c.uniformRange) == c
    ensures WellFormed(c) && r.Ok? ==> WellFormed(r.value)
  {
    var name :- FieldAt(f, 1);
    var dist :- Named(ServiceDistributionNamed(name), "Config file: invalid service time distribution!");
    var time :- RealAt(f, 2, parseReal, "Config file: invalid service time!");
    var _ :- Need(time > 0.0, ConfigError("Config file: invalid service time!"));
    var c := c.(serviceDistribution := dist, serviceTime := time);
    if dist == Uniform then
      var range :- RealAt(f, 3, parseReal, "Config file: invalid uniform range length!");
      var _ :- Need(range > 0.0 && time - range / 2.0 > 0.0,
                    ConfigError("Config file: invalid uniform range length!"));
      Ok(c.(uniformRange := range))
    else
      Ok(c)
  }

  /** A `POWER` line: four non-negative consumptions with sleep <= idle <= active. */
  function PowerLine(c: Config, f: seq<string>, parseReal: string -> Option<real>): (r: Outcome<Config>)
    ensures r.Ok? ==> 0.0 <= r.value.sleepConsumption <= r.value.idleConsumption <= r.value.activeConsumption
    ensures r.Ok? ==> r.value.transitionConsumption >= 0.0
    // the stored values are the parsed fields
    ensures r.Ok? ==> |f| > 4 && parseReal(f[1]) == Some(r.value.activeConsumption)
                      && parseReal(f[2]) == Some(r.value.idleConsumption)
                      && parseReal(f[3]) == Some(r.value.sleepConsumption)
                      && parseReal(f[4]) == Some(r.value.transitionConsumption)
    // a line that meets every rule is accepted
    ensures |f| > 4 && parseReal(f[1]).Some? && parseReal(f[2]).Some? && parseReal(f[3]).Some?
            && parseReal(f[4]).Some?
            && 0.0 <= parseReal(f[3]).value <= parseReal(f[2]).value <= parseReal(f[1]).value
            && parseReal(f[4]).value >= 0.0
            ==> r.Ok?
    ensures r.Ok? ==> r.value.(activeConsumption := c.activeConsumption, idleConsumption := c.idleConsumption,
                                sleepConsumption := c.sleepConsumption,
                                transitionConsumption := c.transitionConsumption) == c
    ensures WellFormed(c) && r.Ok? ==> WellFormed(r.value)
  {
    var message := "Config file: invalid power consumptions!";
    var active :- RealAt(f, 1, parseReal, message);
    var idle :- RealAt(f, 2, parseReal, message);
    var sleep :- RealAt(f, 3, parseReal, message);
    var transition :- RealAt(f, 4, parseReal, message);
    var _ :- Need(!(active < 0.0 || idle < 0.0 || sleep < 0.0 || transition < 0.0 ||
                    idle > active || sleep > idle), ConfigError(message));
    Ok(c.(activeConsumption := active, idleConsumption := idle,
          sleepConsumption := sleep, transitionConsumption := transition))
  }

  /** A `TRANSITIONS` line: two non-negative transition durations. */
  function TransitionsLine(c: Config, f: seq<string>, parseReal: string -> Option<real>): (r: Outcome<Config>)
    ensures r.Ok? ==> r.value.activeToSleepT >= 0.0 && r.value.sleepToActiveT >= 0.0
    // the stored values are the parsed fields
    ensures r.Ok? ==> |f| > 2 && parseReal(f[1]) == Some(r.value.activeToSleepT)
                      && parseReal(f[2]) == Some(r.value.sleepToActiveT)
    // a line that meets every rule is accepted
    ensures |f| > 2 && parseReal(f[1]).Some? && parseReal(f[2]).Some?
            && parseReal(f[1]).value >= 0.0 && parseReal(f[2]).value >= 0.0
            ==> r.Ok?
    ensures r.Ok? ==> r.value.(activeToSleepT := c.activeToSleepT, sleepToActiveT := c.sleepToActiveT) == c
    ensures WellFormed(c) && r.Ok? ==> WellFormed(r.value)
  {
    var message := "Config file: invalid transition times!";
    var toSleep :- RealAt(f, 1, parseReal, message);
    var toActive :- RealAt(f, 2, parseReal, message);
    var _ :- Need(!(toSleep < 0.0 || toActive < 0.0), ConfigError(message));
    Ok(c.(activeToSleepT := toSleep, sleepToActiveT := toActive))
  }

  /** A `SCHEME` line. For `coalescing`: inactivity timeout, quantity threshold and time
      threshold, where a threshold of 0 switches on the dynamic threshold (starting at 1)
      and adds a target delay; nothing may be negative and the threshold ends up >= 1.
      For `single` and `multiple`: a non-negative inactivity timeout and a positive
      sleeping period. The dynamic flag and the target delay are never reset. */
  function SchemeLine(c: Config, f: seq<string>, parseReal: string -> Option<real>,
                      parseInt: string -> Option<int>): (r: Outcome<Config>)
    ensures r.Ok? ==> r.value.inactivityT >= 0.0
    ensures r.Ok? && r.value.scheme == Coalescing ==>
      r.value.sleepToActiveQth >= 1 && r.value.sleepToActiveTth >= 0.0 && r.value.targetDelay >= 0.0
    ensures r.Ok? && r.value.scheme != Coalescing ==> r.value.sleepingT > 0.0
    ensures r.Ok? && c.dynamicQth ==> r.value.dynamicQth
    // the stored values are the parsed fields
    ensures r.Ok? ==> |f| > 1 && f[1] == SchemeName(r.value.scheme)
    ensures r.Ok? && r.value.scheme == Coalescing ==>
      && |f| > 4 && parseReal(f[2]) == Some(r.value.inactivityT) && parseInt(f[3]).Some?
      && parseReal(f[4]) == Some(r.value.sleepToActiveTth) && r.value.sleepingT == c.sleepingT
    // a quantity threshold of 0 switches on the dynamic threshold, starting at 1
    ensures r.Ok? && r.value.scheme == Coalescing && parseInt(f[3]) == Some(0) ==>
      && r.value.dynamicQth && r.value.sleepToActiveQth == 1
      && |f| > 5 && parseReal(f[5]) == Some(r.value.targetDelay)
    ensures r.Ok? && r.value.scheme == Coalescing && parseInt(f[3]) != Some(0) ==>
      && parseInt(f[3]) == Some(r.value.sleepToActiveQth)
      && r.value.dynamicQth == c.dynamicQth && r.value.targetDelay == c.targetDelay
    ensures r.Ok? && r.value.scheme != Coalescing ==>
      && |f| > 3 && parseReal(f[2]) == Some(r.value.inactivityT) && parseReal(f[3]) == Some(r.value.sleepingT)
      && r.value.sleepToActiveQth == c.sleepToActiveQth && r.value.sleepToActiveTth == c.sleepToActiveTth
      && r.value.dynamicQth == c.dynamicQth && r.value.targetDelay == c.targetDelay
    // a line that meets every rule is accepted; a positive threshold keeps the earlier
    // target delay, which is checked all the same
    ensures |f| > 4 && f[1] == "coalescing"
            && parseReal(f[2]).Some? && parseReal(f[2]).value >= 0.0
            && parseInt(f[3]).Some? && parseInt(f[3]).value >= 0
            && parseReal(f[4]).Some? && parseReal(f[4]).value >= 0.0
            && (parseInt(f[3]).value == 0 ==> |f| > 5 && parseReal(f[5]).Some? && parseReal(f[5]).value >= 0.0)
            && (parseInt(f[3]).value > 0 ==> c.targetDelay >= 0.0)
            ==> r.Ok?
    ensures |f| > 3 && f[1] in {"single", "multiple"}
            && parseReal(f[2]).Some? && parseReal(f[2]).value >= 0.0
            && parseReal(f[3]).Some? && parseReal(f[3]).value > 0.0
            ==> r.Ok?
    ensures r.Ok? ==> r.value.(scheme := c.scheme, inactivityT := c.inactivityT,
                                sleepToActiveQth := c.sleepToActiveQth, sleepingT := c.sleepingT,
                                sleepToActiveTth := c.sleepToActiveTth, dynamicQth := c.dynamicQth,
                                targetDelay := c.targetDelay) == c
    ensures WellFormed(c) && r.Ok? ==> WellFormed(r.value)
  {
    var name :- FieldAt(f, 1);
    var scheme :- Named(SchemeNamed(name), "Config file: invalid energy management scheme!");
    var c := c.(scheme := scheme);
    if scheme == Coalescing then CoalescingParams(c, f, parseReal, parseInt)
    else SleepingParams(c, f, parseReal)
  }

  /** The parameters of a `coalescing` SCHEME line (fields 2 to 5). */
  function CoalescingParams(c: Config, f: seq<string>, parseReal: string -> Option<real>,
                            parseInt: string -> Option<int>): (r: Outcome<Config>)
    ensures r.Ok? ==> r.value.inactivityT >= 0.0 && r.value.sleepToActiveQth >= 1
                      && r.value.sleepToActiveTth >= 0.0 && r.value.targetDelay >= 0.0
    ensures r.Ok? ==>
      && |f| > 4 && parseReal(f[2]) == Some(r.value.inactivityT) && parseInt(f[3]).Some?
      && parseReal(f[4]) == Some(r.value.sleepToActiveTth)
    ensures r.Ok? && parseInt(f[3]) == Some(0) ==>
      && r.value.dynamicQth && r.value.sleepToActiveQth == 1
      && |f| > 5 && parseReal(f[5]) == Some(r.value.targetDelay)
    ensures r.Ok? && parseInt(f[3]) != Some(0) ==>
      && parseInt(f[3]) == Some(r.value.sleepToActiveQth)
      && r.value.dynamicQth == c.dynamicQth && r.value.targetDelay == c.targetDelay
    ensures r.Ok? ==> r.value.(inactivityT := c.inactivityT, sleepToActiveQth := c.sleepToActiveQth,
                                sleepToActiveTth := c.sleepToActiveTth, dynamicQth := c.dynamicQth,
                                targetDelay := c.targetDelay) == c
    ensures |f| > 4
            && parseReal(f[2]).Some? && parseReal(f[2]).value >= 0.0
            && parseInt(f[3]).Some? && parseInt(f[3]).value >= 0
            && parseReal(f[4]).Some? && parseReal(f[4]).value >= 0.0
            && (parseInt(f[3]).value == 0 ==> |f| > 5 && parseReal(f[5]).Some? && parseReal(f[5]).value >= 0.0)
            && (parseInt(f[3]).value > 0 ==> c.targetDelay >= 0.0)
            ==> r.Ok?
  {
    var message := "Config file: invalid coalescing parameters!";
    var inactivity :- RealAt(f, 2, parseReal, message);
    var qth :- IntAt(f, 3, parseInt, message);
    var tth :- RealAt(f, 4, parseReal, message);
    var c := c.(inactivityT := inactivity, sleepToActiveQth := qth, sleepToActiveTth := tth);
    var c :-
      if qth == 0 then
        var target :- RealAt(f, 5, parseReal, message);
        Ok(c.(dynamicQth := true, sleepToActiveQth := 1, targetDelay := target))
      else Ok(c);
    var _ :- Need(!(c.inactivityT < 0.0 || c.sleepToActiveQth <= 0 ||
                    c.sleepToActiveTth < 0.0 || c.targetDelay < 0.0), ConfigError(message));
    Ok(c)
  }

  /** The parameters of a `single` or `multiple` SCHEME line (fields 2 and 3). */
  function SleepingParams(c: Config, f: seq<string>, parseReal: string -> Option<real>): (r: Outcome<Config>)
    ensures r.Ok? ==> r.value.inactivityT >= 0.0 && r.value.sleepingT > 0.0
    ensures r.Ok? ==> |f| > 3 && parseReal(f[2]) == Some(r.value.inactivityT)
                      && parseReal(f[3]) == Some(r.value.sleepingT)
    ensures r.Ok? ==> r.value.(inactivityT := c.inactivityT, sleepingT := c.sleepingT) == c
    ensures |f| > 3 && parseReal(f[2]).Some? && parseReal(f[2]).value >= 0.0
            && parseReal(f[3]).Some? && parseReal(f[3]).value > 0.0
            ==> r.Ok?
  {
    var message := "Config file: invalid sleeping times!";
    var inactivity :- RealAt(f, 2, parseReal, message);
    var sleeping :- RealAt(f, 3, parseReal, message);
    var _ :- Need(!(inactivity < 0.0 || sleeping <= 0.0), ConfigError(message));
    Ok(c.(inactivityT := inactivity, sleepingT := sleeping))
  }

  /** One configuration line: comments and lines with an unknown first field change
      nothing; an accepted line keeps the configuration well formed. */
  function ApplyLine(c: Config, f: seq<string>, parseReal: string -> Option<real>,
                     parseInt: string -> Option<int>): (r: Outcome<Config>)
    ensures IsComment(f) ==> r == Ok(c)
    ensures WellFormed(c) && r.Ok? ==> WellFormed(r.value)
  {
    if IsComment(f) then Ok(c)
    else
      var key :- FieldAt(f, 0);
      if key == "TASKS" then TasksLine(c, f, parseReal)
      else if key == "SERVICE" then ServiceLine(c, f, parseReal)
      else if key == "POWER" then PowerLine(c, f, parseReal)
      else if key == "TRANSITIONS" then TransitionsLine(c, f, parseReal)
      else if key == "SCHEME" then SchemeLine(c, f, parseReal, parseInt)
      else Ok(c)
  }

  /** The configuration after every line in order; the first rejected line ends it. */
  function ParseLines(c: Config, lines: seq<seq<string>>, parseReal: string -> Option<real>,
                      parseInt: string -> Option<int>): (r: Outcome<Config>)
    ensures WellFormed(c) && r.Ok? ==> WellFormed(r.value)
    decreases |lines|
  {
    if lines == [] then Ok(c)
    else
      var next :- ApplyLine(c, lines[0], parseReal, parseInt);
      ParseLines(next, lines[1..], parseReal, parseInt)
  }

  /** The loop over the configuration file. */
  method ParseConfig(defaults: Config, lines: seq<seq<string>>, parseReal: string -> Option<real>,
                     parseInt: string -> Option<int>) returns (r: Outcome<Config>)
    ensures r == ParseLines(defaults, lines, parseReal, parseInt)
    ensures WellFormed(defaults) && r.Ok? ==> WellFormed(r.value)
  {
    var c := defaults;
    var i := 0;
    while i < |lines|
      invariant 0 <= i <= |lines|
      invariant ParseLines(c, lines[i..], parseReal, parseInt) == ParseLines(defaults, lines, parseReal, parseInt)
      invariant WellFormed(defaults) ==> WellFormed(c)
    {
      assert lines[i..][1..] == lines[i + 1..];
      var next := ApplyLine(c, lines[i], parseReal, parseInt);
      if next.Abort? {
        return Abort(next.failure);
      }
      c := next.value;
      i := i + 1;
    }
    assert lines[i..] == [];
    return Ok(c);
  }
}
