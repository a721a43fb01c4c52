/**
 * The fluent builder of the new core's configuration
 * (`com.threadscope.core.configuration.ConfigurationBuilder`). Its setters
 * assign a field and return the builder itself, so a chain of calls is a
 * sequence of method calls here. A section method hands a fresh nested
 * builder, primed with the current section, to a caller-supplied
 * configurer and keeps the section that builder then builds. A configurer,
 * which is arbitrary caller code, is modelled as the sequence of setter
 * calls it makes on the builder it is given.
 */
module ConfigBuilder {
  import opened Common
  import opened CoreConfig

  /** The values a sequence of setter calls leaves, starting from `f`. */
  function Configure<F, S>(f: F, setters: seq<S>, step: (F, S) -> F): (r: F)
    decreases |setters|
  {
    if |setters| == 0 then f else Configure(step(f, setters[0]), setters[1..], step)
  }

  /** Two configurers in a row do what their setter calls do one after the other. */
  lemma {:induction false} ConfigureAppend<F, S>(f: F, a: seq<S>, b: seq<S>, step: (F, S) -> F)
    ensures Configure(Configure(f, a, step), b, step) == Configure(f, a + b, step)
    decreases |a|
  {
    if |a| > 0 {
      assert (a + b)[0] == a[0] && (a + b)[1..] == a[1..] + b;
      ConfigureAppend(step(f, a[0]), a[1..], b, step);
    } else {
      assert a + b == b;
    }
  }

  /** One more setter call. */
  lemma ConfigureStep<F, S>(f: F, setters: seq<S>, i: nat, step: (F, S) -> F)
    requires i < |setters|
    ensures Configure(f, setters[..i + 1], step) == step(Configure(f, setters[..i], step), setters[i])
  {
    assert setters[..i + 1] == setters[..i] + [setters[i]];
    ConfigureAppend(f, setters[..i], [setters[i]], step);
  }

  /** The configurer that makes no call leaves the values as they were. */
  lemma ConfigureNothing<F, S>(f: F, step: (F, S) -> F)
    ensures Configure(f, [], step) == f
  {
  }

  /**
   * Later setter calls of one field win; a setter call of another field
   * does not disturb it.
   */
  lemma SnapshotSetOnlyItsField(f: SnapshotFields, d: Duration, x: Option<OutputFormat>)
    ensures Configure(f, [SetInterval(d), SetFormat(x)], SnapshotSet).interval == d
    ensures Configure(f, [SetInterval(d), SetFormat(x)], SnapshotSet).directory == f.directory
  {
    assert [SetInterval(d), SetFormat(x)] == [SetInterval(d)] + [SetFormat(x)];
    ConfigureAppend(f, [SetInterval(d)], [SetFormat(x)], SnapshotSet);
  }

  /** One setter call a snapshot configurer makes on its builder. */
  datatype SnapshotSetter = SetInterval(interval: Duration) | SetFormat(format: Option<OutputFormat>) | SetDirectory(directory: Option<string>) | SetEnabled(enabled: bool)

  /** What one setter call does to the snapshot builder's values. */
  function SnapshotSet(f: SnapshotFields, s: SnapshotSetter): (r: SnapshotFields)
  {
    match s
    case SetInterval(x) => f.(interval := x)
    case SetFormat(x) => f.(format := x)
    case SetDirectory(x) => f.(directory := x)
    case SetEnabled(x) => f.(enabled := x)
  }

  /** `ConfigurationBuilder.SnapshotConfigBuilder`; `format(null)` and `directory(null)` are accepted. */
  class SnapshotConfigBuilder {
    var interval: Duration
    var format: Option<OutputFormat>
    var directory: Option<string>
    var enabled: bool

    function Fields(): (f: SnapshotFields)
      reads this
    {
      SnapshotFields(interval, format, directory, enabled)
    }

    /** Starts from the values of the section it is given. */
    constructor(defaults: SnapshotConfig)
      ensures Fields() == defaults.Fields()
    {
      interval := defaults.interval;
      format := defaults.format;
      directory := defaults.directory;
      enabled := defaults.enabled;
    }

    method Interval(interval: Duration)
      modifies this
      ensures Fields() == old(Fields()).(interval := interval)
    {
      this.interval := interval;
    }

    method Format(format: Option<OutputFormat>)
      modifies this
      ensures Fields() == old(Fields()).(format := format)
    {
      this.format := format;
    }

    method Directory(directory: Option<string>)
      modifies this
      ensures Fields() == old(Fields()).(directory := directory)
    {
      this.directory := directory;
    }

    method Enabled(enabled: bool)
      modifies this
      ensures Fields() == old(Fields()).(enabled := enabled)
    {
      this.enabled := enabled;
    }

    /** The setter calls of a configurer, in order. */
    method Apply(setters: seq<SnapshotSetter>)
      modifies this
      ensures Fields() == Configure(old(Fields()), setters, SnapshotSet)
    {
      for i := 0 to |setters|
        invariant Fields() == Configure(old(Fields()), setters[..i], SnapshotSet)
      {
        ConfigureStep(old(Fields()), setters, i, SnapshotSet);
        match setters[i]
        case SetInterval(x) => Interval(x);
        case SetFormat(x) => Format(x);
        case SetDirectory(x) => Directory(x);
        case SetEnabled(x) => Enabled(x);
      }
      assert setters[..|setters|] == setters;
    }

    method Build() returns (c: SnapshotConfig)
      ensures fresh(c) && c.Fields() == Fields()
    {
      c := new SnapshotConfig(interval, format, directory, enabled);
    }
  }

  /** One setter call a dashboard configurer makes on its builder. */
  datatype DashboardSetter = SetEnabled(enabled: bool) | SetPort(port: int) | SetAutoOpenBrowser(autoOpenBrowser: bool) | SetHost(host: string)

  /** What one setter call does to the dashboard builder's values. */
  function DashboardSet(f: DashboardFields, s: DashboardSetter): (r: DashboardFields)
  {
    match s
    case SetEnabled(x) => f.(enabled := x)
    case SetPort(x) => f.(port := x)
    case SetAutoOpenBrowser(x) => f.(autoOpenBrowser := x)
    case SetHost(x) => f.(host := x)
  }

  /** `ConfigurationBuilder.DashboardConfigBuilder`. */
  class DashboardConfigBuilder {
    var enabled: bool
    var port: int
    var autoOpenBrowser: bool
    var host: string

    function Fields(): (f: DashboardFields)
      reads this
    {
      DashboardFields(enabled, port, autoOpenBrowser, host)
    }

    /** Starts from the values of the section it is given. */
    constructor(defaults: DashboardConfig)
      ensures Fields() == defaults.Fields()
    {
      enabled := defaults.enabled;
      port := defaults.port;
      autoOpenBrowser := defaults.autoOpenBrowser;
      host := defaults.host;
    }

    method Enabled(enabled: bool)
      modifies this
      ensures Fields() == old(Fields()).(enabled := enabled)
    {
      this.enabled := enabled;
    }

    method Port(port: int)
      modifies this
      ensures Fields() == old(Fields()).(port := port)
    {
      this.port := port;
    }

    method AutoOpenBrowser(autoOpenBrowser: bool)
      modifies this
      ensures Fields() == old(Fields()).(autoOpenBrowser := autoOpenBrowser)
    {
      this.autoOpenBrowser := autoOpenBrowser;
    }

    method Host(host: string)
      modifies this
      ensures Fields() == old(Fields()).(host := host)
    {
      this.host := host;
    }

    /** The setter calls of a configurer, in order. */
    method Apply(setters: seq<DashboardSetter>)
      modifies this
      ensures Fields() == Configure(old(Fields()), setters, DashboardSet)
    {
      for i := 0 to |setters|
        invariant Fields() == Configure(old(Fields()), setters[..i], DashboardSet)
      {
        ConfigureStep(old(Fields()), setters, i, DashboardSet);
        match setters[i]
        case SetEnabled(x) => Enabled(x);
        case SetPort(x) => Port(x);
        case SetAutoOpenBrowser(x) => AutoOpenBrowser(x);
        case SetHost(x) => Host(x);
      }
      assert setters[..|setters|] == setters;
    }

    method Build() returns (c: DashboardConfig)
      ensures fresh(c) && c.Fields() == Fields()
    {
      c := new DashboardConfig(enabled, port, autoOpenBrowser, host);
    }
  }

  /** One setter call a alerts configurer makes on its builder. */
  datatype AlertsSetter = SetDeadlockDetection(deadlockDetection: bool) | SetHungThreadThreshold(hungThreadThreshold: Duration) | SetEmailNotifications(emailNotifications: bool) | SetEmailRecipients(emailRecipients: string)

  /** What one setter call does to the alerts builder's values. */
  function AlertsSet(f: AlertsFields, s: AlertsSetter): (r: AlertsFields)
  {
    match s
    case SetDeadlockDetection(x) => f.(deadlockDetection := x)
    case SetHungThreadThreshold(x) => f.(hungThreadThreshold := x)
    case SetEmailNotifications(x) => f.(emailNotifications := x)
    case SetEmailRecipients(x) => f.(emailRecipients := x)
  }

  /** `ConfigurationBuilder.AlertsConfigBuilder`. */
  class AlertsConfigBuilder {
    var deadlockDetection: bool
    var hungThreadThreshold: Duration
    var emailNotifications: bool
    var emailRecipients: string

    function Fields(): (f: AlertsFields)
      reads this
    {
      AlertsFields(deadlockDetection, hungThreadThreshold, emailNotifications, emailRecipients)
    }

    /** Starts from the values of the section it is given. */
    constructor(defaults: AlertsConfig)
      ensures Fields() == defaults.Fields()
    {
      deadlockDetection := defaults.deadlockDetection;
      hungThreadThreshold := defaults.hungThreadThreshold;
      emailNotifications := defaults.emailNotifications;
      emailRecipients := defaults.emailRecipients;
    }

    method DeadlockDetection(deadlockDetection: bool)
      modifies this
      ensures Fields() == old(Fields()).(deadlockDetection := deadlockDetection)
    {
      this.deadlockDetection := deadlockDetection;
    }

    method HungThreadThreshold(hungThreadThreshold: Duration)
      modifies this
      ensures Fields() == old(Fields()).(hungThreadThreshold := hungThreadThreshold)
    {
      this.hungThreadThreshold := hungThreadThreshold;
    }

    method EmailNotifications(emailNotifications: bool)
      modifies this
      ensures Fields() == old(Fields()).(emailNotifications := emailNotifications)
    {
      this.emailNotifications := emailNotifications;
    }

    method EmailRecipients(emailRecipients: string)
      modifies this
      ensures Fields() == old(Fields()).(emailRecipients := emailRecipients)
    {
      this.emailRecipients := emailRecipients;
    }

    /** The setter calls of a configurer, in order. */
    method Apply(setters: seq<AlertsSetter>)
      modifies this
      ensures Fields() == Configure(old(Fields()), setters, AlertsSet)
    {
      for i := 0 to |setters|
        invariant Fields() == Configure(old(Fields()), setters[..i], AlertsSet)
      {
        ConfigureStep(old(Fields()), setters, i, AlertsSet);
        match setters[i]
        case SetDeadlockDetection(x) => DeadlockDetection(x);
        case SetHungThreadThreshold(x) => HungThreadThreshold(x);
        case SetEmailNotifications(x) => EmailNotifications(x);
        case SetEmailRecipients(x) => EmailRecipients(x);
      }
      assert setters[..|setters|] == setters;
    }

    method Build() returns (c: AlertsConfig)
      ensures fresh(c) && c.Fields() == Fields()
    {
      c := new AlertsConfig(deadlockDetection, hungThreadThreshold, emailNotifications, emailRecipients);
    }
  }

  /** One setter call a logging configurer makes on its builder. */
  datatype LoggingSetter = SetLevel(level: LogLevel) | SetOutput(output: LogOutput) | SetLogFile(logFile: string)

  /** What one setter call does to the logging builder's values. */
  function LoggingSet(f: LoggingFields, s: LoggingSetter): (r: LoggingFields)
  {
    match s
    case SetLevel(x) => f.(level := x)
    case SetOutput(x) => f.(output := x)
    case SetLogFile(x) => f.(logFile := x)
  }

  /** `ConfigurationBuilder.LoggingConfigBuilder`. */
  class LoggingConfigBuilder {
    var level: LogLevel
    var output: LogOutput
    var logFile: string

    function Fields(): (f: LoggingFields)
      reads this
    {
      LoggingFields(level, output, logFile)
    }

    /** Starts from the values of the section it is given. */
    constructor(defaults: LoggingConfig)
      ensures Fields() == defaults.Fields()
    {
      level := defaults.level;
      output := defaults.output;
      logFile := defaults.logFile;
    }

    method Level(level: LogLevel)
      modifies this
      ensures Fields() == old(Fields()).(level := level)
    {
      this.level := level;
    }

    method Output(output: LogOutput)
      modifies this
      ensures Fields() == old(Fields()).(output := output)
    {
      this.output := output;
    }

    method LogFile(logFile: string)
      modifies this
      ensures Fields() == old(Fields()).(logFile := logFile)
    {
      this.logFile := logFile;
    }

    /** The setter calls of a configurer, in order. */
    method Apply(setters: seq<LoggingSetter>)
      modifies this
      ensures Fields() == Configure(old(Fields()), setters, LoggingSet)
    {
      for i := 0 to |setters|
        invariant Fields() == Configure(old(Fields()), setters[..i], LoggingSet)
      {
        ConfigureStep(old(Fields()), setters, i, LoggingSet);
        match setters[i]
        case SetLevel(x) => Level(x);
        case SetOutput(x) => Output(x);
        case SetLogFile(x) => LogFile(x);
      }
      assert setters[..|setters|] == setters;
    }

    method Build() returns (c: LoggingConfig)
      ensures fresh(c) && c.Fields() == Fields()
    {
      c := new LoggingConfig(level, output, logFile);
    }
  }

  /** One setter call a advanced configurer makes on its builder. */
  datatype AdvancedSetter = SetIncludeSystemThreads(includeSystemThreads: bool) | SetMaxStackTraceDepth(maxStackTraceDepth: int) | SetMaxThreadsToMonitor(maxThreadsToMonitor: int) | SetEnableAsyncDetection(enableAsyncDetection: bool)

  /** What one setter call does to the advanced builder's values. */
  function AdvancedSet(f: AdvancedFields, s: AdvancedSetter): (r: AdvancedFields)
  {
    match s
    case SetIncludeSystemThreads(x) => f.(includeSystemThreads := x)
    case SetMaxStackTraceDepth(x) => f.(maxStackTraceDepth := x)
    case SetMaxThreadsToMonitor(x) => f.(maxThreadsToMonitor := x)
    case SetEnableAsyncDetection(x) => f.(enableAsyncDetection := x)
  }

  /** `ConfigurationBuilder.AdvancedConfigBuilder`. */
  class AdvancedConfigBuilder {
    var includeSystemThreads: bool
    var maxStackTraceDepth: int
    var maxThreadsToMonitor: int
    var enableAsyncDetection: bool

    function Fields(): (f: AdvancedFields)
      reads this
    {
      AdvancedFields(includeSystemThreads, maxStackTraceDepth, maxThreadsToMonitor, enableAsyncDetection)
    }

    /** Starts from the values of the section it is given. */
    constructor(defaults: AdvancedConfig)
      ensures Fields() == defaults.Fields()
    {
      includeSystemThreads := defaults.includeSystemThreads;
      maxStackTraceDepth := defaults.maxStackTraceDepth;
      maxThreadsToMonitor := defaults.maxThreadsToMonitor;
      enableAsyncDetection := defaults.enableAsyncDetection;
    }

    method IncludeSystemThreads(includeSystemThreads: bool)
      modifies this
      ensures Fields() == old(Fields()).(includeSystemThreads := includeSystemThreads)
    {
      this.includeSystemThreads := includeSystemThreads;
    }

    method MaxStackTraceDepth(maxStackTraceDepth: int)
      modifies this
      ensures Fields() == old(Fields()).(maxStackTraceDepth := maxStackTraceDepth)
    {
      this.maxStackTraceDepth := maxStackTraceDepth;
    }

    method MaxThreadsToMonitor(maxThreadsToMonitor: int)
      modifies this
      ensures Fields() == old(Fields()).(maxThreadsToMonitor := maxThreadsToMonitor)
    {
      this.maxThreadsToMonitor := maxThreadsToMonitor;
    }

    method EnableAsyncDetection(enableAsyncDetection: bool)
      modifies this
      ensures Fields() == old(Fields()).(enableAsyncDetection := enableAsyncDetection)
    {
      this.enableAsyncDetection := enableAsyncDetection;
    }

    /** The setter calls of a configurer, in order. */
    method Apply(setters: seq<AdvancedSetter>)
      modifies this
      ensures Fields() == Configure(old(Fields()), setters, AdvancedSet)
    {
      for i := 0 to |setters|
        invariant Fields() == Configure(old(Fields()), setters[..i], AdvancedSet)
      {
        ConfigureStep(old(Fields()), setters, i, AdvancedSet);
        match setters[i]
        case SetIncludeSystemThreads(x) => IncludeSystemThreads(x);
        case SetMaxStackTraceDepth(x) => MaxStackTraceDepth(x);
        case SetMaxThreadsToMonitor(x) => MaxThreadsToMonitor(x);
        case SetEnableAsyncDetection(x) => EnableAsyncDetection(x);
      }
      assert setters[..|setters|] == setters;
    }

    method Build() returns (c: AdvancedConfig)
      ensures fresh(c) && c.Fields() == Fields()
    {
      c := new AdvancedConfig(includeSystemThreads, maxStackTraceDepth, maxThreadsToMonitor, enableAsyncDetection);
    }
  }

  /** `ConfigurationBuilder`. */
  class ConfigurationBuilder {
    var enabled: bool
    var snapshot: SnapshotConfig
    var dashboard: DashboardConfig
    var alerts: AlertsConfig
    var logging: LoggingConfig
    var advanced: AdvancedConfig

    /** Every section holds its defaults. */
    predicate HasDefaultSections()
      reads this
    {
      snapshot.Fields() == SNAPSHOT_DEFAULTS && dashboard.Fields() == DASHBOARD_DEFAULTS &&
      alerts.Fields() == ALERTS_DEFAULTS && logging.Fields() == LOGGING_DEFAULTS &&
      advanced.Fields() == ADVANCED_DEFAULTS
    }

    /** The private constructor: enabled, with the default sections. */
    constructor()
      ensures enabled && HasDefaultSections()
    {
      var s := SnapshotConfig.Defaults();
      var d := DashboardConfig.Defaults();
      var a := AlertsConfig.Defaults();
      var l := LoggingConfig.Defaults();
      var x := AdvancedConfig.Defaults();
      enabled, snapshot, dashboard, alerts, logging, advanced := true, s, d, a, l, x;
    }

    /** `enabled(b)`: only the flag changes. */
    method Enabled(enabled: bool)
      modifies this
      ensures this.enabled == enabled
      ensures snapshot == old(snapshot) && dashboard == old(dashboard) && alerts == old(alerts)
      ensures logging == old(logging) && advanced == old(advanced)
    {
      this.enabled := enabled;
    }

    /** `snapshot(configurer)`: a new snapshot section, built from the current one; nothing else changes. */
    method Snapshot(configurer: seq<SnapshotSetter>)
      modifies this
      ensures fresh(snapshot) && snapshot.Fields() == Configure(old(snapshot.Fields()), configurer, SnapshotSet)
      ensures enabled == old(enabled) && dashboard == old(dashboard) && alerts == old(alerts)
      ensures logging == old(logging) && advanced == old(advanced)
    {
      var b := new SnapshotConfigBuilder(snapshot);
      b.Apply(configurer);
      snapshot := b.Build();
    }

    /** `dashboard(configurer)`: a new dashboard section, built from the current one; nothing else changes. */
    method Dashboard(configurer: seq<DashboardSetter>)
      modifies this
      ensures fresh(dashboard) && dashboard.Fields() == Configure(old(dashboard.Fields()), configurer, DashboardSet)
      ensures enabled == old(enabled) && snapshot == old(snapshot) && alerts == old(alerts)
      ensures logging == old(logging) && advanced == old(advanced)
    {
      var b := new DashboardConfigBuilder(dashboard);
      b.Apply(configurer);
      dashboard := b.Build();
    }

    /** `alerts(configurer)`: a new alerts section, built from the current one; nothing else changes. */
    method Alerts(configurer: seq<AlertsSetter>)
      modifies this
      ensures fresh(alerts) && alerts.Fields() == Configure(old(alerts.Fields()), configurer, AlertsSet)
      ensures enabled == old(enabled) && snapshot == old(snapshot) && dashboard == old(dashboard)
      ensures logging == old(logging) && advanced == old(advanced)
    {
      var b := new AlertsConfigBuilder(alerts);
      b.Apply(configurer);
      alerts := b.Build();
    }

    /** `logging(configurer)`: a new logging section, built from the current one; nothing else changes. */
    method Logging(configurer: seq<LoggingSetter>)
      modifies this
      ensures fresh(logging) && logging.Fields() == Configure(old(logging.Fields()), configurer, LoggingSet)
      ensures enabled == old(enabled) && snapshot == old(snapshot) && dashboard == old(dashboard)
      ensures alerts == old(alerts) && advanced == old(advanced)
    {
      var b := new LoggingConfigBuilder(logging);
      b.Apply(configurer);
      logging := b.Build();
    }

    /** `advanced(configurer)`: a new advanced section, built from the current one; nothing else changes. */
    method Advanced(configurer: seq<AdvancedSetter>)
      modifies this
      ensures fresh(advanced) && advanced.Fields() == Configure(old(advanced.Fields()), configurer, AdvancedSet)
      ensures enabled == old(enabled) && snapshot == old(snapshot) && dashboard == old(dashboard)
      ensures alerts == old(alerts) && logging == old(logging)
    {
      var b := new AdvancedConfigBuilder(advanced);
      b.Apply(configurer);
      advanced := b.Build();
    }

    /** `build()`: a configuration holding the builder's flag and its current sections. */
    method Build() returns (c: ThreadScopeConfig)
      ensures c.enabled == enabled && c.snapshot == snapshot && c.dashboard == dashboard
      ensures c.alerts == alerts && c.logging == logging && c.advanced == advanced
    {
      c := ThreadScopeConfig(enabled, snapshot, dashboard, alerts, logging, advanced);
    }
  }

  /** `ConfigurationBuilder.builder()`. */
  method Builder() returns (b: ConfigurationBuilder)
    ensures fresh(b) && b.enabled && b.HasDefaultSections()
  {
    b := new ConfigurationBuilder();
  }

  /** `ConfigurationBuilder.defaults()`: the same starting state as `builder()`. */
  method DefaultsBuilder() returns (b: ConfigurationBuilder)
    ensures fresh(b) && b.enabled && b.HasDefaultSections()
  {
    b := new ConfigurationBuilder();
  }

  /** A builder built untouched holds exactly the values of `ThreadScopeConfig.defaults()`. */
  method BuildUntouched() returns (built: ThreadScopeConfig, defaults: ThreadScopeConfig)
    ensures built.enabled == defaults.enabled && HasDefaultSections(built) && HasDefaultSections(defaults)
  {
    var b := Builder();
    built := b.Build();
    defaults := CoreConfig.Defaults();
  }

  /** Two configurers on one section accumulate: the second starts where the first stopped. */
  method SnapshotTwice(b: ConfigurationBuilder, first: seq<SnapshotSetter>, second: seq<SnapshotSetter>)
    modifies b
    ensures b.snapshot.Fields() == Configure(old(b.snapshot.Fields()), first + second, SnapshotSet)
    ensures b.dashboard == old(b.dashboard) && b.alerts == old(b.alerts) && b.logging == old(b.logging)
    ensures b.advanced == old(b.advanced) && b.enabled == old(b.enabled)
  {
    b.Snapshot(first);
    b.Snapshot(second);
    ConfigureAppend(old(b.snapshot.Fields()), first, second, SnapshotSet);
  }
}
