/**
 * The new core's immutable configuration
 * (`com.threadscope.core.configuration.ThreadScopeConfig`). The five
 * sections are final classes with final fields and no `equals` of their own,
 * so two sections are equal only when they are the same object; each is an
 * object with `const` fields here. The top-level record compares its
 * sections with `Objects.equals`, i.e. by reference, which is what equality
 * of a datatype holding object references does.
 */
module CoreConfig {
  import opened Common

  /** `ThreadScopeConfig.OutputFormat`. */
  datatype OutputFormat = HTML | JSON | BOTH

  /** `ThreadScopeConfig.LogLevel`. */
  datatype LogLevel = TRACE | DEBUG | INFO | WARN | ERROR

  /** `ThreadScopeConfig.LogOutput`. */
  datatype LogOutput = CONSOLE | FILE | BOTH

  // ---------------------------------------------------------------------
  // The values a section holds
  // ---------------------------------------------------------------------

  datatype SnapshotFields = SnapshotFields(interval: Duration, format: Option<OutputFormat>, directory: Option<string>, enabled: bool)

  datatype DashboardFields = DashboardFields(enabled: bool, port: int, autoOpenBrowser: bool, host: string)

  datatype AlertsFields = AlertsFields(
    deadlockDetection: bool, hungThreadThreshold: Duration, emailNotifications: bool, emailRecipients: string)

  datatype LoggingFields = LoggingFields(level: LogLevel, output: LogOutput, logFile: string)

  datatype AdvancedFields = AdvancedFields(
    includeSystemThreads: bool, maxStackTraceDepth: int, maxThreadsToMonitor: int, enableAsyncDetection: bool)

  /** `SnapshotConfig.defaults()`: every 10 s, HTML, into "./thread-dumps", enabled. */
  const SNAPSHOT_DEFAULTS: SnapshotFields := SnapshotFields(OfSeconds(10), Some(OutputFormat.HTML), Some("./thread-dumps"), true)

  /** `DashboardConfig.defaults()`: enabled on localhost:9090, no browser. */
  const DASHBOARD_DEFAULTS: DashboardFields := DashboardFields(true, 9090, false, "localhost")

  /** `AlertsConfig.defaults()`: deadlock detection, 15 s hung-thread threshold, no e-mail. */
  const ALERTS_DEFAULTS: AlertsFields := AlertsFields(true, OfSeconds(15), false, "")

  /** `LoggingConfig.defaults()`: INFO to the console, no log file. */
  const LOGGING_DEFAULTS: LoggingFields := LoggingFields(INFO, CONSOLE, "")

  /** `AdvancedConfig.defaults()`: no system threads, 20 frames, 1000 threads, async detection. */
  const ADVANCED_DEFAULTS: AdvancedFields := AdvancedFields(false, 20, 1000, true)

  // ---------------------------------------------------------------------
  // The sections
  // ---------------------------------------------------------------------

  /**
   * `ThreadScopeConfig.SnapshotConfig`. Its constructor and `with` methods
   * take the format and the directory as they come, null included (`None`).
   */
  class SnapshotConfig {
    const interval: Duration
    const format: Option<OutputFormat>
    const directory: Option<string>
    const enabled: bool

    constructor(interval: Duration, format: Option<OutputFormat>, directory: Option<string>, enabled: bool)
      ensures Fields() == SnapshotFields(interval, format, directory, enabled)
    {
      this.interval := interval;
      this.format := format;
      this.directory := directory;
      this.enabled := enabled;
    }

    function Fields(): (f: SnapshotFields)
    {
      SnapshotFields(interval, format, directory, enabled)
    }

    static method Defaults() returns (s: SnapshotConfig)
      ensures fresh(s) && s.Fields() == SNAPSHOT_DEFAULTS
    {
      s := new SnapshotConfig(OfSeconds(10), Some(OutputFormat.HTML), Some("./thread-dumps"), true);
    }

    method WithInterval(interval: Duration) returns (r: SnapshotConfig)
      ensures fresh(r) && r.Fields() == Fields().(interval := interval)
    {
      r := new SnapshotConfig(interval, format, directory, enabled);
    }

    method WithFormat(format: Option<OutputFormat>) returns (r: SnapshotConfig)
      ensures fresh(r) && r.Fields() == Fields().(format := format)
    {
      r := new SnapshotConfig(interval, format, directory, enabled);
    }

    method WithDirectory(directory: Option<string>) returns (r: SnapshotConfig)
      ensures fresh(r) && r.Fields() == Fields().(directory := directory)
    {
      r := new SnapshotConfig(interval, format, directory, enabled);
    }

    method WithEnabled(enabled: bool) returns (r: SnapshotConfig)
      ensures fresh(r) && r.Fields() == Fields().(enabled := enabled)
    {
      r := new SnapshotConfig(interval, format, directory, enabled);
    }
  }

  /** `ThreadScopeConfig.DashboardConfig`. */
  class DashboardConfig {
    const enabled: bool
    const port: int
    const autoOpenBrowser: bool
    const host: string

    constructor(enabled: bool, port: int, autoOpenBrowser: bool, host: string)
      ensures Fields() == DashboardFields(enabled, port, autoOpenBrowser, host)
    {
      this.enabled := enabled;
      this.port := port;
      this.autoOpenBrowser := autoOpenBrowser;
      this.host := host;
    }

    function Fields(): (f: DashboardFields)
    {
      DashboardFields(enabled, port, autoOpenBrowser, host)
    }

    static method Defaults() returns (d: DashboardConfig)
      ensures fresh(d) && d.Fields() == DASHBOARD_DEFAULTS
    {
      d := new DashboardConfig(true, 9090, false, "localhost");
    }

    method WithEnabled(enabled: bool) returns (r: DashboardConfig)
      ensures fresh(r) && r.Fields() == Fields().(enabled := enabled)
    {
      r := new DashboardConfig(enabled, port, autoOpenBrowser, host);
    }

    method WithPort(port: int) returns (r: DashboardConfig)
      ensures fresh(r) && r.Fields() == Fields().(port := port)
    {
      r := new DashboardConfig(enabled, port, autoOpenBrowser, host);
    }

    method WithAutoOpenBrowser(autoOpenBrowser: bool) returns (r: DashboardConfig)
      ensures fresh(r) && r.Fields() == Fields().(autoOpenBrowser := autoOpenBrowser)
    {
      r := new DashboardConfig(enabled, port, autoOpenBrowser, host);
    }

    method WithHost(host: string) returns (r: DashboardConfig)
      ensures fresh(r) && r.Fields() == Fields().(host := host)
    {
      r := new DashboardConfig(enabled, port, autoOpenBrowser, host);
    }
  }

  /** `ThreadScopeConfig.AlertsConfig`; it has no `with` for the e-mail fields. */
  class AlertsConfig {
    const deadlockDetection: bool
    const hungThreadThreshold: Duration
    const emailNotifications: bool
    const emailRecipients: string

    constructor(deadlockDetection: bool, hungThreadThreshold: Duration, emailNotifications: bool, emailRecipients: string)
      ensures Fields() == AlertsFields(deadlockDetection, hungThreadThreshold, emailNotifications, emailRecipients)
    {
      this.deadlockDetection := deadlockDetection;
      this.hungThreadThreshold := hungThreadThreshold;
      this.emailNotifications := emailNotifications;
      this.emailRecipients := emailRecipients;
    }

    function Fields(): (f: AlertsFields)
    {
      AlertsFields(deadlockDetection, hungThreadThreshold, emailNotifications, emailRecipients)
    }

    static method Defaults() returns (a: AlertsConfig)
      ensures fresh(a) && a.Fields() == ALERTS_DEFAULTS
    {
      a := new AlertsConfig(true, OfSeconds(15), false, "");
    }

    method WithDeadlockDetection(deadlockDetection: bool) returns (r: AlertsConfig)
      ensures fresh(r) && r.Fields() == Fields().(deadlockDetection := deadlockDetection)
    {
      r := new AlertsConfig(deadlockDetection, hungThreadThreshold, emailNotifications, emailRecipients);
    }

    method WithHungThreadThreshold(threshold: Duration) returns (r: AlertsConfig)
      ensures fresh(r) && r.Fields() == Fields().(hungThreadThreshold := threshold)
    {
      r := new AlertsConfig(deadlockDetection, threshold, emailNotifications, emailRecipients);
    }
  }

  /** `ThreadScopeConfig.LoggingConfig`. */
  class LoggingConfig {
    const level: LogLevel
    const output: LogOutput
    const logFile: string

    constructor(level: LogLevel, output: LogOutput, logFile: string)
      ensures Fields() == LoggingFields(level, output, logFile)
    {
      this.level := level;
      this.output := output;
      this.logFile := logFile;
    }

    function Fields(): (f: LoggingFields)
    {
      LoggingFields(level, output, logFile)
    }

    static method Defaults() returns (l: LoggingConfig)
      ensures fresh(l) && l.Fields() == LOGGING_DEFAULTS
    {
      l := new LoggingConfig(INFO, CONSOLE, "");
    }

    method WithLevel(level: LogLevel) returns (r: LoggingConfig)
      ensures fresh(r) && r.Fields() == Fields().(level := level)
    {
      r := new LoggingConfig(level, output, logFile);
    }

    method WithOutput(output: LogOutput) returns (r: LoggingConfig)
      ensures fresh(r) && r.Fields() == Fields().(output := output)
    {
      r := new LoggingConfig(level, output, logFile);
    }

    method WithLogFile(logFile: string) returns (r: LoggingConfig)
      ensures fresh(r) && r.Fields() == Fields().(logFile := logFile)
    {
      r := new LoggingConfig(level, output, logFile);
    }
  }

  /** `ThreadScopeConfig.AdvancedConfig`. */
  class AdvancedConfig {
    const includeSystemThreads: bool
    const maxStackTraceDepth: int
    const maxThreadsToMonitor: int
    const enableAsyncDetection: bool

    constructor(includeSystemThreads: bool, maxStackTraceDepth: int, maxThreadsToMonitor: int, enableAsyncDetection: bool)
      ensures Fields() == AdvancedFields(includeSystemThreads, maxStackTraceDepth, maxThreadsToMonitor, enableAsyncDetection)
    {
      this.includeSystemThreads := includeSystemThreads;
      this.maxStackTraceDepth := maxStackTraceDepth;
      this.maxThreadsToMonitor := maxThreadsToMonitor;
      this.enableAsyncDetection := enableAsyncDetection;
    }

    function Fields(): (f: AdvancedFields)
    {
      AdvancedFields(includeSystemThreads, maxStackTraceDepth, maxThreadsToMonitor, enableAsyncDetection)
    }

    static method Defaults() returns (a: AdvancedConfig)
      ensures fresh(a) && a.Fields() == ADVANCED_DEFAULTS
    {
      a := new AdvancedConfig(false, 20, 1000, true);
    }

    method WithIncludeSystemThreads(includeSystemThreads: bool) returns (r: AdvancedConfig)
      ensures fresh(r) && r.Fields() == Fields().(includeSystemThreads := includeSystemThreads)
    {
      r := new AdvancedConfig(includeSystemThreads, maxStackTraceDepth, maxThreadsToMonitor, enableAsyncDetection);
    }

    method WithMaxStackTraceDepth(maxStackTraceDepth: int) returns (r: AdvancedConfig)
      ensures fresh(r) && r.Fields() == Fields().(maxStackTraceDepth := maxStackTraceDepth)
    {
      r := new AdvancedConfig(includeSystemThreads, maxStackTraceDepth, maxThreadsToMonitor, enableAsyncDetection);
    }

    method WithMaxThreadsToMonitor(maxThreadsToMonitor: int) returns (r: AdvancedConfig)
      ensures fresh(r) && r.Fields() == Fields().(maxThreadsToMonitor := maxThreadsToMonitor)
    {
      r := new AdvancedConfig(includeSystemThreads, maxStackTraceDepth, maxThreadsToMonitor, enableAsyncDetection);
    }

    method WithEnableAsyncDetection(enableAsyncDetection: bool) returns (r: AdvancedConfig)
      ensures fresh(r) && r.Fields() == Fields().(enableAsyncDetection := enableAsyncDetection)
    {
      r := new AdvancedConfig(includeSystemThreads, maxStackTraceDepth, maxThreadsToMonitor, enableAsyncDetection);
    }
  }

  // ---------------------------------------------------------------------
  // The whole configuration
  // ---------------------------------------------------------------------

  /**
   * `ThreadScopeConfig`: the enabled flag and references to the five
   * sections. Datatype equality is the class's `equals`: the flags agree and
   * each section is the same object.
   */
  datatype ThreadScopeConfig = ThreadScopeConfig(
    enabled: bool,
    snapshot: SnapshotConfig,
    dashboard: DashboardConfig,
    alerts: AlertsConfig,
    logging: LoggingConfig,
    advanced: AdvancedConfig)
  {
    /** `withEnabled`: a configuration that differs only in `enabled`. */
    function WithEnabled(enabled: bool): (r: ThreadScopeConfig)
      ensures r.enabled == enabled
      ensures r.snapshot == snapshot && r.dashboard == dashboard && r.alerts == alerts
      ensures r.logging == logging && r.advanced == advanced
    {
      ThreadScopeConfig(enabled, snapshot, dashboard, alerts, logging, advanced)
    }

    /** `withSnapshot`: a configuration that differs only in its snapshot section. */
    function WithSnapshot(snapshot: SnapshotConfig): (r: ThreadScopeConfig)
      ensures r.snapshot == snapshot
      ensures r.enabled == enabled && r.dashboard == dashboard && r.alerts == alerts
      ensures r.logging == logging && r.advanced == advanced
    {
      ThreadScopeConfig(enabled, snapshot, dashboard, alerts, logging, advanced)
    }

    /** `withDashboard`: a configuration that differs only in its dashboard section. */
    function WithDashboard(dashboard: DashboardConfig): (r: ThreadScopeConfig)
      ensures r.dashboard == dashboard
      ensures r.enabled == enabled && r.snapshot == snapshot && r.alerts == alerts
      ensures r.logging == logging && r.advanced == advanced
    {
      ThreadScopeConfig(enabled, snapshot, dashboard, alerts, logging, advanced)
    }
  }

  /** Every section holds its defaults. */
  predicate HasDefaultSections(c: ThreadScopeConfig)
  {
    c.snapshot.Fields() == SNAPSHOT_DEFAULTS && c.dashboard.Fields() == DASHBOARD_DEFAULTS &&
    c.alerts.Fields() == ALERTS_DEFAULTS && c.logging.Fields() == LOGGING_DEFAULTS &&
    c.advanced.Fields() == ADVANCED_DEFAULTS
  }

  /** `ThreadScopeConfig.defaults()`: enabled, with five new default sections. */
  method Defaults() returns (c: ThreadScopeConfig)
    ensures c.enabled && HasDefaultSections(c)
    ensures fresh(c.snapshot) && fresh(c.dashboard) && fresh(c.alerts) && fresh(c.logging) && fresh(c.advanced)
  {
    var snapshot := SnapshotConfig.Defaults();
    var dashboard := DashboardConfig.Defaults();
    var alerts := AlertsConfig.Defaults();
    var logging := LoggingConfig.Defaults();
    var advanced := AdvancedConfig.Defaults();
    c := ThreadScopeConfig(true, snapshot, dashboard, alerts, logging, advanced);
  }

  /**
   * Because the sections compare by reference, two calls of `defaults()`
   * give configurations that hold the same values and are not equal.
   */
  method DefaultsTwice() returns (a: ThreadScopeConfig, b: ThreadScopeConfig)
    ensures HasDefaultSections(a) && HasDefaultSections(b) && a.enabled == b.enabled
    ensures a != b
  {
    a := Defaults();
    b := Defaults();
  }

  /** Setting a configuration's own flag gives an equal configuration; the last flag set wins. */
  lemma WithEnabledOwn(c: ThreadScopeConfig, x: bool, y: bool)
    ensures c.WithEnabled(c.enabled) == c
    ensures c.WithEnabled(x).WithEnabled(y) == c.WithEnabled(y)
  {
  }
}
