/**
 * The legacy mutable configuration (`com.threadscope.ThreadScopeConfig`): a
 * plain object whose setters overwrite one field and whose getters hand out
 * the nested section objects themselves, so a section changed through a
 * getter is changed for every holder of it. Any field of reference type may
 * be set to null.
 */
module LegacyConfig {
  import opened Common

  /** `SnapshotConfig.OutputConfig`. */
  class OutputConfig {
    var format: Option<string>
    var directory: Option<string>

    constructor()
      ensures format == Some("html") && directory == Some("./thread-dumps")
    {
      format := Some("html");
      directory := Some("./thread-dumps");
    }

    method SetFormat(format: Option<string>)
      modifies this
      ensures this.format == format && directory == old(directory)
    {
      this.format := format;
    }

    method SetDirectory(directory: Option<string>)
      modifies this
      ensures this.directory == directory && format == old(format)
    {
      this.directory := directory;
    }
  }

  /** `ThreadScopeConfig.SnapshotConfig`. */
  class SnapshotConfig {
    var interval: Option<Duration>
    var output: OutputConfig?

    constructor()
      ensures interval == Some(OfSeconds(10))
      ensures output != null && fresh(output)
      ensures output.format == Some("html") && output.directory == Some("./thread-dumps")
    {
      interval := Some(OfSeconds(10));
      output := new OutputConfig();
    }

    method SetInterval(interval: Option<Duration>)
      modifies this
      ensures this.interval == interval && output == old(output)
    {
      this.interval := interval;
    }

    method SetOutput(output: OutputConfig?)
      modifies this
      ensures this.output == output && interval == old(interval)
    {
      this.output := output;
    }
  }

  /** `ThreadScopeConfig.DashboardConfig`. */
  class DashboardConfig {
    var enabled: bool
    var port: int
    var autoOpenBrowser: bool

    constructor()
      ensures enabled && port == 9090 && !autoOpenBrowser
    {
      enabled := true;
      port := 9090;
      autoOpenBrowser := false;
    }

    method SetEnabled(enabled: bool)
      modifies this
      ensures this.enabled == enabled && port == old(port) && autoOpenBrowser == old(autoOpenBrowser)
    {
      this.enabled := enabled;
    }

    method SetPort(port: int)
      modifies this
      ensures this.port == port && enabled == old(enabled) && autoOpenBrowser == old(autoOpenBrowser)
    {
      this.port := port;
    }

    method SetAutoOpenBrowser(autoOpenBrowser: bool)
      modifies this
      ensures this.autoOpenBrowser == autoOpenBrowser && enabled == old(enabled) && port == old(port)
    {
      this.autoOpenBrowser := autoOpenBrowser;
    }
  }

  /** `ThreadScopeConfig.AlertsConfig`. */
  class AlertsConfig {
    var deadlockDetection: bool
    var hungThreadThresholdMs: int

    constructor()
      ensures deadlockDetection && hungThreadThresholdMs == 15000
    {
      deadlockDetection := true;
      hungThreadThresholdMs := 15000;
    }

    method SetDeadlockDetection(deadlockDetection: bool)
      modifies this
      ensures this.deadlockDetection == deadlockDetection && hungThreadThresholdMs == old(hungThreadThresholdMs)
    {
      this.deadlockDetection := deadlockDetection;
    }

    method SetHungThreadThresholdMs(hungThreadThresholdMs: int)
      modifies this
      ensures this.hungThreadThresholdMs == hungThreadThresholdMs && deadlockDetection == old(deadlockDetection)
    {
      this.hungThreadThresholdMs := hungThreadThresholdMs;
    }
  }

  /** `ThreadScopeConfig.LoggingConfig`. */
  class LoggingConfig {
    var level: Option<string>
    var output: Option<string>

    constructor()
      ensures level == Some("INFO") && output == Some("console")
    {
      level := Some("INFO");
      output := Some("console");
    }

    method SetLevel(level: Option<string>)
      modifies this
      ensures this.level == level && output == old(output)
    {
      this.level := level;
    }

    method SetOutput(output: Option<string>)
      modifies this
      ensures this.output == output && level == old(level)
    {
      this.output := output;
    }
  }

  /** `ThreadScopeConfig.AdvancedConfig`. */
  class AdvancedConfig {
    var includeSystemThreads: bool
    var maxStackTraceDepth: int

    constructor()
      ensures !includeSystemThreads && maxStackTraceDepth == 20
    {
      includeSystemThreads := false;
      maxStackTraceDepth := 20;
    }

    method SetIncludeSystemThreads(includeSystemThreads: bool)
      modifies this
      ensures this.includeSystemThreads == includeSystemThreads && maxStackTraceDepth == old(maxStackTraceDepth)
    {
      this.includeSystemThreads := includeSystemThreads;
    }

    method SetMaxStackTraceDepth(maxStackTraceDepth: int)
      modifies this
      ensures this.maxStackTraceDepth == maxStackTraceDepth && includeSystemThreads == old(includeSystemThreads)
    {
      this.maxStackTraceDepth := maxStackTraceDepth;
    }
  }

  /**
   * Every leaf value of a configuration whose sections are all present, as
   * one record. A text value may be null.
   */
  datatype Settings = Settings(
    enabled: bool,
    interval: Option<Duration>,
    format: Option<string>,
    directory: Option<string>,
    dashboardEnabled: bool,
    port: int,
    autoOpenBrowser: bool,
    deadlockDetection: bool,
    hungThreadThresholdMs: int,
    level: Option<string>,
    logOutput: Option<string>,
    includeSystemThreads: bool,
    maxStackTraceDepth: int)

  /** The field initialisers of every class. */
  const DEFAULTS: Settings := Settings(
    true, Some(OfSeconds(10)), Some("html"), Some("./thread-dumps"),
    true, 9090, false,
    true, 15000,
    Some("INFO"), Some("console"),
    false, 20)

  /** `ThreadScopeConfig`. */
  class ThreadScopeConfig {
    var enabled: bool
    var snapshot: SnapshotConfig?
    var dashboard: DashboardConfig?
    var alerts: AlertsConfig?
    var logging: LoggingConfig?
    var advanced: AdvancedConfig?

    /** Every section, and the snapshot's output, is present. */
    predicate Complete()
      reads this, snapshot
    {
      snapshot != null && snapshot.output != null && dashboard != null && alerts != null &&
      logging != null && advanced != null
    }

    /** The section objects, whose fields the loader sets. */
    function Sections(): (r: set<object>)
      reads this, snapshot
      requires Complete()
    {
      {snapshot, snapshot.output, dashboard, alerts, logging, advanced}
    }

    function Values(): (v: Settings)
      reads this, snapshot
      requires Complete()
      reads Sections()
    {
      Settings(
        enabled, snapshot.interval, snapshot.output.format, snapshot.output.directory,
        dashboard.enabled, dashboard.port, dashboard.autoOpenBrowser,
        alerts.deadlockDetection, alerts.hungThreadThresholdMs,
        logging.level, logging.output,
        advanced.includeSystemThreads, advanced.maxStackTraceDepth)
    }

    /** `new ThreadScopeConfig()`: enabled, with a new default object for every section. */
    constructor()
      ensures Complete() && Values() == DEFAULTS
      ensures fresh(snapshot) && fresh(snapshot.output) && fresh(dashboard) && fresh(alerts)
      ensures fresh(logging) && fresh(advanced)
    {
      var s := new SnapshotConfig();
      var d := new DashboardConfig();
      var a := new AlertsConfig();
      var l := new LoggingConfig();
      var x := new AdvancedConfig();
      enabled, snapshot, dashboard, alerts, logging, advanced := true, s, d, a, l, x;
    }

    method SetEnabled(enabled: bool)
      modifies this
      ensures this.enabled == enabled
      ensures snapshot == old(snapshot) && dashboard == old(dashboard) && alerts == old(alerts)
      ensures logging == old(logging) && advanced == old(advanced)
    {
      this.enabled := enabled;
    }

    method SetSnapshot(snapshot: SnapshotConfig?)
      modifies this
      ensures this.snapshot == snapshot
      ensures enabled == old(enabled) && dashboard == old(dashboard) && alerts == old(alerts)
      ensures logging == old(logging) && advanced == old(advanced)
    {
      this.snapshot := snapshot;
    }

    method SetDashboard(dashboard: DashboardConfig?)
      modifies this
      ensures this.dashboard == dashboard
      ensures enabled == old(enabled) && snapshot == old(snapshot) && alerts == old(alerts)
      ensures logging == old(logging) && advanced == old(advanced)
    {
      this.dashboard := dashboard;
    }

    method SetAlerts(alerts: AlertsConfig?)
      modifies this
      ensures this.alerts == alerts
      ensures enabled == old(enabled) && snapshot == old(snapshot) && dashboard == old(dashboard)
      ensures logging == old(logging) && advanced == old(advanced)
    {
      this.alerts := alerts;
    }

    method SetLogging(logging: LoggingConfig?)
      modifies this
      ensures this.logging == logging
      ensures enabled == old(enabled) && snapshot == old(snapshot) && dashboard == old(dashboard)
      ensures alerts == old(alerts) && advanced == old(advanced)
    {
      this.logging := logging;
    }

    method SetAdvanced(advanced: AdvancedConfig?)
      modifies this
      ensures this.advanced == advanced
      ensures enabled == old(enabled) && snapshot == old(snapshot) && dashboard == old(dashboard)
      ensures alerts == old(alerts) && logging == old(logging)
    {
      this.advanced := advanced;
    }
  }

  /**
   * A section handed from one configuration to another is shared: a change
   * made through either holder's getter is seen by both.
   */
  method ShareDashboard(a: ThreadScopeConfig, b: ThreadScopeConfig, port: int)
    requires a.dashboard != null
    modifies b, a.dashboard
    ensures a.dashboard == old(a.dashboard) && b.dashboard == a.dashboard
    ensures a.dashboard.port == port && b.dashboard.port == port
  {
    b.SetDashboard(a.dashboard);
    b.dashboard.SetPort(port);
  }
}
