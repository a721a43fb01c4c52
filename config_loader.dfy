/**
 * The legacy configuration loader (`ThreadScopeConfigLoader`): starting
 * from the defaults it merges a YAML file, then applies a properties file,
 * the system properties under the "threadscope." prefix and finally four
 * environment variables, each stage overwriting what the previous ones set.
 *
 * Files, system properties and the environment are parameters: the YAML
 * file is the configuration Jackson read from it (absent when there is no
 * file or reading it fails), a properties source is a key-to-value map, and
 * `Duration.parse` is a caller-supplied partial function (`None` where it
 * throws).
 */
module ConfigLoader {
  import opened Common
  import opened LegacyConfig

  // ---------------------------------------------------------------------
  // Parsing the text of a property
  // ---------------------------------------------------------------------

  /** `Boolean.parseBoolean`: "true" in any case is true, everything else false. */
  predicate ParseBoolean(s: string)
  {
    EqualsIgnoreCase(s, "true")
  }

  predicate IsDigit(c: char)
  {
    '0' <= c <= '9'
  }

  predicate AllDigits(s: string)
  {
    forall i :: 0 <= i < |s| ==> IsDigit(s[i])
  }

  /** The value of a string of decimal digits. */
  function DigitsValue(s: string): (n: nat)
    requires AllDigits(s)
    decreases |s|
  {
    if |s| == 0 then 0 else DigitsValue(s[..|s| - 1]) * 10 + (s[|s| - 1] as int - '0' as int)
  }

  /** An optional sign followed by at least one decimal digit, and the number it denotes. */
  function ParseDecimal(s: string): (r: Option<int>)
  {
    if |s| == 0 then None
    else if s[0] == '-' || s[0] == '+' then
      if |s| > 1 && AllDigits(s[1..]) then
        var m: int := DigitsValue(s[1..]);
        Some(if s[0] == '-' then -m else m)
      else None
    else if AllDigits(s) then Some(DigitsValue(s))
    else None
  }

  /** `Integer.parseInt`: a decimal number that fits in 32 bits, or `None` where it throws. */
  function ParseInt(s: string): (r: Option<int>)
    ensures r.Some? ==> -0x8000_0000 <= r.value < 0x8000_0000
  {
    var d := ParseDecimal(s);
    if d.Some? && -0x8000_0000 <= d.value < 0x8000_0000 then d else None
  }

  /** `Long.parseLong`: a decimal number that fits in 64 bits, or `None` where it throws. */
  function ParseLong(s: string): (r: Option<int>)
    ensures r.Some? ==> -0x8000_0000_0000_0000 <= r.value < 0x8000_0000_0000_0000
  {
    var d := ParseDecimal(s);
    if d.Some? && -0x8000_0000_0000_0000 <= d.value < 0x8000_0000_0000_0000 then d else None
  }

  lemma DigitCharValue(d: nat)
    requires d < 10
    ensures IsDigit(DigitChar(d)) && DigitChar(d) as int - '0' as int == d
  {
    assert "0123456789"[0] == '0' && "0123456789"[1] == '1' && "0123456789"[2] == '2';
    assert "0123456789"[3] == '3' && "0123456789"[4] == '4' && "0123456789"[5] == '5';
    assert "0123456789"[6] == '6' && "0123456789"[7] == '7' && "0123456789"[8] == '8';
    assert "0123456789"[9] == '9';
  }

  /** The decimal text of a natural number is all digits and denotes that number. */
  lemma {:induction false} NatToStringValue(n: nat)
    ensures AllDigits(NatToString(n)) && DigitsValue(NatToString(n)) == n
    decreases n
  {
    if n < 10 {
      DigitCharValue(n);
      assert NatToString(n)[..0] == "";
    } else {
      var s := NatToString(n);
      NatToStringValue(n / 10);
      DigitCharValue(n % 10);
      assert s[..|s| - 1] == NatToString(n / 10);
      assert s[|s| - 1] == DigitChar(n % 10);
    }
  }

  /** The decimal text of any integer parses back to it. */
  lemma DecimalRoundTrip(n: int)
    ensures ParseDecimal(IntToString(n)) == Some(n)
  {
    if n < 0 {
      var m: nat := -n;
      var t := NatToString(m);
      NatToStringValue(m);
      NegativeDecimal(t);
      assert IntToString(n) == "-" + t;
    } else {
      var s := NatToString(n);
      NatToStringValue(n);
      assert IntToString(n) == s;
      assert IsDigit(s[0]);
    }
  }

  /** A minus sign before a string of digits negates its value. */
  lemma NegativeDecimal(t: string)
    requires |t| > 0 && AllDigits(t)
    ensures ParseDecimal("-" + t) == Some(0 - DigitsValue(t))
  {
    assert ("-" + t)[1..] == t;
  }

  /** `Integer.parseInt(Integer.toString(n)) == n` for every 32-bit `n`. */
  lemma ParseIntRoundTrip(n: int)
    requires -0x8000_0000 <= n < 0x8000_0000
    ensures ParseInt(IntToString(n)) == Some(n)
  {
    DecimalRoundTrip(n);
  }

  /** `Long.parseLong(Long.toString(n)) == n` for every 64-bit `n`. */
  lemma ParseLongRoundTrip(n: int)
    requires -0x8000_0000_0000_0000 <= n < 0x8000_0000_0000_0000
    ensures ParseLong(IntToString(n)) == Some(n)
  {
    DecimalRoundTrip(n);
  }

  // ---------------------------------------------------------------------
  // The value each property helper hands to its setter
  // ---------------------------------------------------------------------

  /** A key-to-value source: a `Properties` object or the environment. */
  type Source = map<string, string>

  /** `getProperty(key)` / `System.getenv(key)`: the value, or null. */
  function Get(props: Source, key: string): (v: Option<string>)
  {
    if key in props then Some(props[key]) else None
  }

  function OrElse<T>(o: Option<T>, current: T): (r: T)
  {
    if o.Some? then o.value else current
  }

  /** `setBooleanProperty`: the setter is called, with the parsed flag, exactly when the key is present. */
  function BooleanProperty(props: Source, key: string): (r: Option<bool>)
    ensures r.Some? <==> key in props
    ensures r.Some? ==> r.value == ParseBoolean(props[key])
  {
    if key in props then Some(ParseBoolean(props[key])) else None
  }

  /** `setIntProperty`: the setter is called exactly when the key is present and its value parses. */
  function IntProperty(props: Source, key: string): (r: Option<int>)
    ensures r.Some? <==> key in props && ParseInt(props[key]).Some?
    ensures r.Some? ==> r == ParseInt(props[key])
  {
    if key in props then ParseInt(props[key]) else None
  }

  /** `setLongProperty`: the setter is called exactly when the key is present and its value parses. */
  function LongProperty(props: Source, key: string): (r: Option<int>)
    ensures r.Some? <==> key in props && ParseLong(props[key]).Some?
    ensures r.Some? ==> r == ParseLong(props[key])
  {
    if key in props then ParseLong(props[key]) else None
  }

  /**
   * The snapshot-interval property: the value is parsed as "PT" + value;
   * the setter is called only when that parses.
   */
  function IntervalProperty(props: Source, key: string, parseDuration: string -> Option<Duration>): (r: Option<Duration>)
    ensures r.Some? <==> key in props && parseDuration("PT" + props[key]).Some?
  {
    if key in props then parseDuration("PT" + props[key]) else None
  }

  /** `setStringProperty`: the setter is called, with the value itself, exactly when the key is present. */
  function StringProperty(props: Source, key: string): (r: Option<string>)
    ensures r.Some? <==> key in props
    ensures r.Some? ==> r.value == props[key]
  {
    Get(props, key)
  }

  /** A nullable field after a setter that may or may not have been called. */
  function FirstOf<T>(o: Option<T>, current: Option<T>): (r: Option<T>)
  {
    if o.Some? then o else current
  }

  /**
   * `loadFromProperties(config, props, prefix)` on the values of a complete
   * configuration: each of the thirteen keys, read under the prefix,
   * replaces its field when its helper calls the setter.
   */
  function PropertiesApplied(v: Settings, props: Source, prefix: string, parseDuration: string -> Option<Duration>): (r: Settings)
  {
    Settings(
      OrElse(BooleanProperty(props, prefix + "enabled"), v.enabled),
      FirstOf(IntervalProperty(props, prefix + "snapshot.interval", parseDuration), v.interval),
      FirstOf(StringProperty(props, prefix + "snapshot.output.format"), v.format),
      FirstOf(StringProperty(props, prefix + "snapshot.output.directory"), v.directory),
      OrElse(BooleanProperty(props, prefix + "dashboard.enabled"), v.dashboardEnabled),
      OrElse(IntProperty(props, prefix + "dashboard.port"), v.port),
      OrElse(BooleanProperty(props, prefix + "dashboard.autoOpenBrowser"), v.autoOpenBrowser),
      OrElse(BooleanProperty(props, prefix + "alerts.deadlockDetection"), v.deadlockDetection),
      OrElse(LongProperty(props, prefix + "alerts.hungThreadThresholdMs"), v.hungThreadThresholdMs),
      FirstOf(StringProperty(props, prefix + "logging.level"), v.level),
      FirstOf(StringProperty(props, prefix + "logging.output"), v.logOutput),
      OrElse(BooleanProperty(props, prefix + "advanced.includeSystemThreads"), v.includeSystemThreads),
      OrElse(IntProperty(props, prefix + "advanced.maxStackTraceDepth"), v.maxStackTraceDepth))
  }

  /** `loadFromEnvironment` on the values of a complete configuration. */
  function EnvironmentApplied(v: Settings, env: Source, parseDuration: string -> Option<Duration>): (r: Settings)
  {
    v.(enabled := OrElse(BooleanProperty(env, "THREADSCOPE_ENABLED"), v.enabled),
       dashboardEnabled := OrElse(BooleanProperty(env, "THREADSCOPE_DASHBOARD_ENABLED"), v.dashboardEnabled),
       port := OrElse(IntProperty(env, "THREADSCOPE_DASHBOARD_PORT"), v.port),
       interval := FirstOf(IntervalProperty(env, "THREADSCOPE_SNAPSHOT_INTERVAL", parseDuration), v.interval))
  }

  // ---------------------------------------------------------------------
  // Merging a configuration read from YAML
  // ---------------------------------------------------------------------

  datatype OutputValues = OutputValues(format: Option<string>, directory: Option<string>)
  datatype SnapshotValues = SnapshotValues(interval: Option<Duration>, output: Option<OutputValues>)
  datatype DashboardValues = DashboardValues(enabled: bool, port: int, autoOpenBrowser: bool)
  datatype AlertsValues = AlertsValues(deadlockDetection: bool, hungThreadThresholdMs: int)
  datatype LoggingValues = LoggingValues(level: Option<string>, output: Option<string>)
  datatype AdvancedValues = AdvancedValues(includeSystemThreads: bool, maxStackTraceDepth: int)

  /** The values of a configuration any of whose sections may be null. */
  datatype ConfigValues = ConfigValues(
    enabled: bool,
    snapshot: Option<SnapshotValues>,
    dashboard: Option<DashboardValues>,
    alerts: Option<AlertsValues>,
    logging: Option<LoggingValues>,
    advanced: Option<AdvancedValues>)

  /** What `mergeConfig` reads of its source. */
  function ValuesOf(c: ThreadScopeConfig): (v: ConfigValues)
    reads c, c.snapshot, c.dashboard, c.alerts, c.logging, c.advanced
    reads if c.snapshot != null then {c.snapshot.output} else {}
  {
    ConfigValues(
      c.enabled,
      if c.snapshot == null then None
      else Some(SnapshotValues(c.snapshot.interval,
        if c.snapshot.output == null then None
        else Some(OutputValues(c.snapshot.output.format, c.snapshot.output.directory)))),
      if c.dashboard == null then None
      else Some(DashboardValues(c.dashboard.enabled, c.dashboard.port, c.dashboard.autoOpenBrowser)),
      if c.alerts == null then None
      else Some(AlertsValues(c.alerts.deadlockDetection, c.alerts.hungThreadThresholdMs)),
      if c.logging == null then None
      else Some(LoggingValues(c.logging.level, c.logging.output)),
      if c.advanced == null then None
      else Some(AdvancedValues(c.advanced.includeSystemThreads, c.advanced.maxStackTraceDepth)))
  }

  /** The values of a complete configuration, seen as a merge source. */
  function AsSource(v: Settings): (s: ConfigValues)
  {
    ConfigValues(
      v.enabled,
      Some(SnapshotValues(v.interval, Some(OutputValues(v.format, v.directory)))),
      Some(DashboardValues(v.dashboardEnabled, v.port, v.autoOpenBrowser)),
      Some(AlertsValues(v.deadlockDetection, v.hungThreadThresholdMs)),
      Some(LoggingValues(v.level, v.logOutput)),
      Some(AdvancedValues(v.includeSystemThreads, v.maxStackTraceDepth)))
  }

  /**
   * `mergeConfig(target, source)` on values: every flag and number of a
   * present source section is copied; a text or interval value only when it
   * is not null. (The source compares before it sets, which changes
   * nothing: setting an equal value is no change.)
   */
  function Merged(t: Settings, s: ConfigValues): (r: Settings)
  {
    var snap := s.snapshot;
    var out := if snap.Some? then snap.value.output else None;
    Settings(
      s.enabled,
      if snap.Some? then FirstOf(snap.value.interval, t.interval) else t.interval,
      if out.Some? then FirstOf(out.value.format, t.format) else t.format,
      if out.Some? then FirstOf(out.value.directory, t.directory) else t.directory,
      if s.dashboard.Some? then s.dashboard.value.enabled else t.dashboardEnabled,
      if s.dashboard.Some? then s.dashboard.value.port else t.port,
      if s.dashboard.Some? then s.dashboard.value.autoOpenBrowser else t.autoOpenBrowser,
      if s.alerts.Some? then s.alerts.value.deadlockDetection else t.deadlockDetection,
      if s.alerts.Some? then s.alerts.value.hungThreadThresholdMs else t.hungThreadThresholdMs,
      if s.logging.Some? then FirstOf(s.logging.value.level, t.level) else t.level,
      if s.logging.Some? then FirstOf(s.logging.value.output, t.logOutput) else t.logOutput,
      if s.advanced.Some? then s.advanced.value.includeSystemThreads else t.includeSystemThreads,
      if s.advanced.Some? then s.advanced.value.maxStackTraceDepth else t.maxStackTraceDepth)
  }

  /** The whole of `load` on values: defaults, then YAML, file, system properties, environment. */
  function Loaded(yaml: Option<ConfigValues>, file: Option<Source>, system: Source, env: Source,
                  parseDuration: string -> Option<Duration>): (r: Settings)
  {
    var v0 := if yaml.Some? then Merged(DEFAULTS, yaml.value) else DEFAULTS;
    var v1 := if file.Some? then PropertiesApplied(v0, file.value, "", parseDuration) else v0;
    var v2 := PropertiesApplied(v1, system, "threadscope.", parseDuration);
    EnvironmentApplied(v2, env, parseDuration)
  }

  // ---------------------------------------------------------------------
  // What the value functions promise
  // ---------------------------------------------------------------------

  /** The thirteen keys `loadFromProperties` reads, under a prefix. */
  function PropertyKeys(prefix: string): (keys: set<string>)
  {
    {prefix + "enabled", prefix + "snapshot.interval", prefix + "snapshot.output.format",
     prefix + "snapshot.output.directory", prefix + "dashboard.enabled", prefix + "dashboard.port",
     prefix + "dashboard.autoOpenBrowser", prefix + "alerts.deadlockDetection",
     prefix + "alerts.hungThreadThresholdMs", prefix + "logging.level", prefix + "logging.output",
     prefix + "advanced.includeSystemThreads", prefix + "advanced.maxStackTraceDepth"}
  }

  /** A source holding none of the keys leaves every value as it was. */
  lemma PropertiesWithoutKeys(v: Settings, props: Source, prefix: string, parseDuration: string -> Option<Duration>)
    requires props.Keys !! PropertyKeys(prefix)
    ensures PropertiesApplied(v, props, prefix, parseDuration) == v
  {
    assert prefix + "enabled" in PropertyKeys(prefix);
    assert prefix + "snapshot.interval" in PropertyKeys(prefix);
    assert prefix + "snapshot.output.format" in PropertyKeys(prefix);
    assert prefix + "snapshot.output.directory" in PropertyKeys(prefix);
    assert prefix + "dashboard.enabled" in PropertyKeys(prefix);
    assert prefix + "dashboard.port" in PropertyKeys(prefix);
    assert prefix + "dashboard.autoOpenBrowser" in PropertyKeys(prefix);
    assert prefix + "alerts.deadlockDetection" in PropertyKeys(prefix);
    assert prefix + "alerts.hungThreadThresholdMs" in PropertyKeys(prefix);
    assert prefix + "logging.level" in PropertyKeys(prefix);
    assert prefix + "logging.output" in PropertyKeys(prefix);
    assert prefix + "advanced.includeSystemThreads" in PropertyKeys(prefix);
    assert prefix + "advanced.maxStackTraceDepth" in PropertyKeys(prefix);
  }

  /** A number that does not parse, or an interval that does not, leaves its field as it was. */
  lemma MalformedNumbersIgnored(v: Settings, props: Source, prefix: string, parseDuration: string -> Option<Duration>)
    ensures var r := PropertiesApplied(v, props, prefix, parseDuration);
      (ParseInt(OrElse(Get(props, prefix + "dashboard.port"), "")).None? ==> r.port == v.port) &&
      (ParseInt(OrElse(Get(props, prefix + "advanced.maxStackTraceDepth"), "")).None? ==> r.maxStackTraceDepth == v.maxStackTraceDepth) &&
      (ParseLong(OrElse(Get(props, prefix + "alerts.hungThreadThresholdMs"), "")).None? ==> r.hungThreadThresholdMs == v.hungThreadThresholdMs) &&
      (IntervalProperty(props, prefix + "snapshot.interval", parseDuration).None? ==> r.interval == v.interval)
  {
  }

  /** Applying the same source twice is applying it once. */
  lemma PropertiesIdempotent(v: Settings, props: Source, prefix: string, parseDuration: string -> Option<Duration>)
    ensures var once := PropertiesApplied(v, props, prefix, parseDuration);
      PropertiesApplied(once, props, prefix, parseDuration) == once
  {
  }

  /**
   * The enabled flag comes from the last stage that holds it: the
   * environment, else the system properties, else the file, else the YAML
   * configuration, else the default.
   */
  lemma EnabledPrecedence(yaml: Option<ConfigValues>, file: Option<Source>, system: Source, env: Source,
                          parseDuration: string -> Option<Duration>)
    ensures Loaded(yaml, file, system, env, parseDuration).enabled ==
      OrElse(BooleanProperty(env, "THREADSCOPE_ENABLED"),
      OrElse(BooleanProperty(system, "threadscope.enabled"),
      OrElse(if file.Some? then BooleanProperty(file.value, "enabled") else None,
      if yaml.Some? then yaml.value.enabled else true)))
  {
    assert "threadscope." + "enabled" == "threadscope.enabled";
    assert "" + "enabled" == "enabled";
  }

  /**
   * The dashboard port comes from the last stage that holds a parsable
   * value for it; an unparsable value is passed over, and so is a YAML
   * configuration without a dashboard section.
   */
  lemma PortPrecedence(yaml: Option<ConfigValues>, file: Option<Source>, system: Source, env: Source,
                       parseDuration: string -> Option<Duration>)
    ensures Loaded(yaml, file, system, env, parseDuration).port ==
      OrElse(IntProperty(env, "THREADSCOPE_DASHBOARD_PORT"),
      OrElse(IntProperty(system, "threadscope.dashboard.port"),
      OrElse(if file.Some? then IntProperty(file.value, "dashboard.port") else None,
      if yaml.Some? && yaml.value.dashboard.Some? then yaml.value.dashboard.value.port else 9090)))
  {
    assert "threadscope." + "dashboard.port" == "threadscope.dashboard.port";
    assert "" + "dashboard.port" == "dashboard.port";
  }

  /** The environment touches four values only, and an invalid port or interval leaves its field as it was. */
  lemma EnvironmentOnlyItsValues(v: Settings, env: Source, parseDuration: string -> Option<Duration>)
    ensures var r := EnvironmentApplied(v, env, parseDuration);
      r.(enabled := v.enabled, dashboardEnabled := v.dashboardEnabled, port := v.port, interval := v.interval) == v &&
      (IntProperty(env, "THREADSCOPE_DASHBOARD_PORT").None? ==> r.port == v.port) &&
      (IntervalProperty(env, "THREADSCOPE_SNAPSHOT_INTERVAL", parseDuration).None? ==> r.interval == v.interval)
  {
  }

  /** Merging a configuration's own values into it changes nothing. */
  lemma MergeOwnValues(t: Settings)
    ensures Merged(t, AsSource(t)) == t
  {
  }

  /** Merging the same source a second time changes nothing more. */
  lemma MergeIdempotent(t: Settings, s: ConfigValues)
    ensures Merged(Merged(t, s), s) == Merged(t, s)
  {
  }

  /**
   * A source with every section and every text present decides the whole
   * result, whatever the target held; one without a section leaves that
   * section's values alone.
   */
  lemma MergeFullSourceDecides(t: Settings, t': Settings, v: Settings)
    requires v.interval.Some? && v.format.Some? && v.directory.Some? && v.level.Some? && v.logOutput.Some?
    ensures Merged(t, AsSource(v)) == v && Merged(t', AsSource(v)) == v
  {
  }

  /** Without a dashboard section the dashboard values stay; with one, all three are the source's. */
  lemma MergedDashboardValues(t: Settings, s: ConfigValues)
    ensures var r := Merged(t, s);
      (s.dashboard.None? ==> r.dashboardEnabled == t.dashboardEnabled && r.port == t.port && r.autoOpenBrowser == t.autoOpenBrowser) &&
      (s.dashboard.Some? ==>
         r.dashboardEnabled == s.dashboard.value.enabled && r.port == s.dashboard.value.port &&
         r.autoOpenBrowser == s.dashboard.value.autoOpenBrowser)
  {
  }

  // ---------------------------------------------------------------------
  // The loader
  // ---------------------------------------------------------------------

  /** The snapshot part of `mergeConfig`: the interval, and the output's format and directory. */
  method MergeSnapshot(t: SnapshotConfig, s: Option<SnapshotValues>)
    requires t.output != null
    modifies t, t.output
    ensures t.output == old(t.output)
    ensures s.None? ==> t.interval == old(t.interval)
    ensures s.Some? ==> t.interval == FirstOf(s.value.interval, old(t.interval))
    ensures s.None? || s.value.output.None? ==>
      t.output.format == old(t.output.format) && t.output.directory == old(t.output.directory)
    ensures s.Some? && s.value.output.Some? ==>
      t.output.format == FirstOf(s.value.output.value.format, old(t.output.format)) &&
      t.output.directory == FirstOf(s.value.output.value.directory, old(t.output.directory))
  {
    if s.Some? {
      if s.value.interval.Some? {
        t.SetInterval(s.value.interval);
      }
      var output := s.value.output;
      if output.Some? {
        if output.value.format.Some? {
          t.output.SetFormat(output.value.format);
        }
        if output.value.directory.Some? {
          t.output.SetDirectory(output.value.directory);
        }
      }
    }
  }

  /** The dashboard part of `mergeConfig`: each value that differs is set. */
  method MergeDashboard(t: DashboardConfig, s: Option<DashboardValues>)
    modifies t
    ensures s.None? ==> t.enabled == old(t.enabled) && t.port == old(t.port) && t.autoOpenBrowser == old(t.autoOpenBrowser)
    ensures s.Some? ==> t.enabled == s.value.enabled && t.port == s.value.port && t.autoOpenBrowser == s.value.autoOpenBrowser
  {
    if s.Some? {
      if s.value.enabled != t.enabled {
        t.SetEnabled(s.value.enabled);
      }
      if s.value.port != t.port {
        t.SetPort(s.value.port);
      }
      if s.value.autoOpenBrowser != t.autoOpenBrowser {
        t.SetAutoOpenBrowser(s.value.autoOpenBrowser);
      }
    }
  }

  /** The alerts part of `mergeConfig`. */
  method MergeAlerts(t: AlertsConfig, s: Option<AlertsValues>)
    modifies t
    ensures s.None? ==> t.deadlockDetection == old(t.deadlockDetection) && t.hungThreadThresholdMs == old(t.hungThreadThresholdMs)
    ensures s.Some? ==> t.deadlockDetection == s.value.deadlockDetection && t.hungThreadThresholdMs == s.value.hungThreadThresholdMs
  {
    if s.Some? {
      if s.value.deadlockDetection != t.deadlockDetection {
        t.SetDeadlockDetection(s.value.deadlockDetection);
      }
      if s.value.hungThreadThresholdMs != t.hungThreadThresholdMs {
        t.SetHungThreadThresholdMs(s.value.hungThreadThresholdMs);
      }
    }
  }

  /** The logging part of `mergeConfig`: only values that are not null are copied. */
  method MergeLogging(t: LoggingConfig, s: Option<LoggingValues>)
    modifies t
    ensures s.None? ==> t.level == old(t.level) && t.output == old(t.output)
    ensures s.Some? ==> t.level == FirstOf(s.value.level, old(t.level)) && t.output == FirstOf(s.value.output, old(t.output))
  {
    if s.Some? {
      if s.value.level.Some? {
        t.SetLevel(s.value.level);
      }
      if s.value.output.Some? {
        t.SetOutput(s.value.output);
      }
    }
  }

  /** The advanced part of `mergeConfig`. */
  method MergeAdvanced(t: AdvancedConfig, s: Option<AdvancedValues>)
    modifies t
    ensures s.None? ==> t.includeSystemThreads == old(t.includeSystemThreads) && t.maxStackTraceDepth == old(t.maxStackTraceDepth)
    ensures s.Some? ==> t.includeSystemThreads == s.value.includeSystemThreads && t.maxStackTraceDepth == s.value.maxStackTraceDepth
  {
    if s.Some? {
      if s.value.includeSystemThreads != t.includeSystemThreads {
        t.SetIncludeSystemThreads(s.value.includeSystemThreads);
      }
      if s.value.maxStackTraceDepth != t.maxStackTraceDepth {
        t.SetMaxStackTraceDepth(s.value.maxStackTraceDepth);
      }
    }
  }

  /**
   * `mergeConfig(target, source)`: copies the source's values into the
   * target's sections. The source's values are read once, before the first
   * change; since setting a section to its own values changes nothing, this
   * gives the same result when the two share a section.
   */
  method MergeConfig(target: ThreadScopeConfig, source: ThreadScopeConfig)
    requires target.Complete()
    modifies target, target.Sections()
    ensures target.snapshot == old(target.snapshot) && target.snapshot.output == old(target.snapshot.output)
    ensures target.dashboard == old(target.dashboard) && target.alerts == old(target.alerts)
    ensures target.logging == old(target.logging) && target.advanced == old(target.advanced)
    ensures target.Complete() && target.Values() == Merged(old(target.Values()), old(ValuesOf(source)))
  {
    var from := ValuesOf(source);
    var snapshot, dashboard, alerts, logging, advanced :=
      target.snapshot, target.dashboard, target.alerts, target.logging, target.advanced;
    if from.enabled != target.enabled {
      target.SetEnabled(from.enabled);
    }
    MergeSnapshot(snapshot, from.snapshot);
    MergeDashboard(dashboard, from.dashboard);
    MergeAlerts(alerts, from.alerts);
    MergeLogging(logging, from.logging);
    MergeAdvanced(advanced, from.advanced);
  }

  // ---------------------------------------------------------------------
  // Reading properties and the environment into a configuration
  // ---------------------------------------------------------------------

  /** The dashboard keys of `loadFromProperties(config, props, prefix)`. */
  method LoadDashboardProperties(d: DashboardConfig, props: Source, prefix: string)
    modifies d
    ensures d.enabled == OrElse(BooleanProperty(props, prefix + "dashboard.enabled"), old(d.enabled))
    ensures d.port == OrElse(IntProperty(props, prefix + "dashboard.port"), old(d.port))
    ensures d.autoOpenBrowser == OrElse(BooleanProperty(props, prefix + "dashboard.autoOpenBrowser"), old(d.autoOpenBrowser))
  {
    var enabled := BooleanProperty(props, prefix + "dashboard.enabled");
    if enabled.Some? {
      d.SetEnabled(enabled.value);
    }
    var port := IntProperty(props, prefix + "dashboard.port");
    if port.Some? {
      d.SetPort(port.value);
    }
    var open := BooleanProperty(props, prefix + "dashboard.autoOpenBrowser");
    if open.Some? {
      d.SetAutoOpenBrowser(open.value);
    }
  }

  /** The snapshot keys of `loadFromProperties(config, props, prefix)`. */
  method LoadSnapshotProperties(s: SnapshotConfig, props: Source, prefix: string,
                                parseDuration: string -> Option<Duration>)
    requires s.output != null
    modifies s, s.output
    ensures s.output == old(s.output)
    ensures s.interval == FirstOf(IntervalProperty(props, prefix + "snapshot.interval", parseDuration), old(s.interval))
    ensures s.output.format == FirstOf(StringProperty(props, prefix + "snapshot.output.format"), old(s.output.format))
    ensures s.output.directory == FirstOf(StringProperty(props, prefix + "snapshot.output.directory"), old(s.output.directory))
  {
    var interval := IntervalProperty(props, prefix + "snapshot.interval", parseDuration);
    if interval.Some? {
      s.SetInterval(interval);
    }
    var format := StringProperty(props, prefix + "snapshot.output.format");
    if format.Some? {
      s.output.SetFormat(format);
    }
    var directory := StringProperty(props, prefix + "snapshot.output.directory");
    if directory.Some? {
      s.output.SetDirectory(directory);
    }
  }

  /** The alerts keys of `loadFromProperties(config, props, prefix)`. */
  method LoadAlertsProperties(a: AlertsConfig, props: Source, prefix: string)
    modifies a
    ensures a.deadlockDetection == OrElse(BooleanProperty(props, prefix + "alerts.deadlockDetection"), old(a.deadlockDetection))
    ensures a.hungThreadThresholdMs == OrElse(LongProperty(props, prefix + "alerts.hungThreadThresholdMs"), old(a.hungThreadThresholdMs))
  {
    var detection := BooleanProperty(props, prefix + "alerts.deadlockDetection");
    if detection.Some? {
      a.SetDeadlockDetection(detection.value);
    }
    var threshold := LongProperty(props, prefix + "alerts.hungThreadThresholdMs");
    if threshold.Some? {
      a.SetHungThreadThresholdMs(threshold.value);
    }
  }

  /** The logging keys of `loadFromProperties(config, props, prefix)`. */
  method LoadLoggingProperties(l: LoggingConfig, props: Source, prefix: string)
    modifies l
    ensures l.level == FirstOf(StringProperty(props, prefix + "logging.level"), old(l.level))
    ensures l.output == FirstOf(StringProperty(props, prefix + "logging.output"), old(l.output))
  {
    var level := StringProperty(props, prefix + "logging.level");
    if level.Some? {
      l.SetLevel(level);
    }
    var output := StringProperty(props, prefix + "logging.output");
    if output.Some? {
      l.SetOutput(output);
    }
  }

  /** The advanced keys of `loadFromProperties(config, props, prefix)`. */
  method LoadAdvancedProperties(x: AdvancedConfig, props: Source, prefix: string)
    modifies x
    ensures x.includeSystemThreads == OrElse(BooleanProperty(props, prefix + "advanced.includeSystemThreads"), old(x.includeSystemThreads))
    ensures x.maxStackTraceDepth == OrElse(IntProperty(props, prefix + "advanced.maxStackTraceDepth"), old(x.maxStackTraceDepth))
  {
    var system := BooleanProperty(props, prefix + "advanced.includeSystemThreads");
    if system.Some? {
      x.SetIncludeSystemThreads(system.value);
    }
    var depth := IntProperty(props, prefix + "advanced.maxStackTraceDepth");
    if depth.Some? {
      x.SetMaxStackTraceDepth(depth.value);
    }
  }

  /**
   * `loadFromProperties(config, props, prefix)`: every key present under the
   * prefix whose value its helper accepts is written into the configuration's
   * own section objects; nothing else changes.
   */
  method LoadFromProperties(config: ThreadScopeConfig, props: Source, prefix: string,
                            parseDuration: string -> Option<Duration>)
    requires config.Complete()
    modifies config, config.Sections()
    ensures config.snapshot == old(config.snapshot) && config.snapshot.output == old(config.snapshot.output)
    ensures config.dashboard == old(config.dashboard) && config.alerts == old(config.alerts)
    ensures config.logging == old(config.logging) && config.advanced == old(config.advanced)
    ensures config.Complete() && config.Values() == PropertiesApplied(old(config.Values()), props, prefix, parseDuration)
  {
    var enabled := BooleanProperty(props, prefix + "enabled");
    if enabled.Some? {
      config.SetEnabled(enabled.value);
    }
    LoadSectionProperties(config.snapshot, config.dashboard, config.alerts, config.logging, config.advanced,
      props, prefix, parseDuration);
  }

  /** The section keys of `loadFromProperties(config, props, prefix)`, section by section. */
  method LoadSectionProperties(snapshot: SnapshotConfig, dashboard: DashboardConfig, alerts: AlertsConfig,
                               logging: LoggingConfig, advanced: AdvancedConfig,
                               props: Source, prefix: string, parseDuration: string -> Option<Duration>)
    requires snapshot.output != null
    modifies snapshot, snapshot.output, dashboard, alerts, logging, advanced
    ensures snapshot.output == old(snapshot.output)
    ensures snapshot.interval == FirstOf(IntervalProperty(props, prefix + "snapshot.interval", parseDuration), old(snapshot.interval))
    ensures snapshot.output.format == FirstOf(StringProperty(props, prefix + "snapshot.output.format"), old(snapshot.output.format))
    ensures snapshot.output.directory == FirstOf(StringProperty(props, prefix + "snapshot.output.directory"), old(snapshot.output.directory))
    ensures dashboard.enabled == OrElse(BooleanProperty(props, prefix + "dashboard.enabled"), old(dashboard.enabled))
    ensures dashboard.port == OrElse(IntProperty(props, prefix + "dashboard.port"), old(dashboard.port))
    ensures dashboard.autoOpenBrowser == OrElse(BooleanProperty(props, prefix + "dashboard.autoOpenBrowser"), old(dashboard.autoOpenBrowser))
    ensures alerts.deadlockDetection == OrElse(BooleanProperty(props, prefix + "alerts.deadlockDetection"), old(alerts.deadlockDetection))
    ensures alerts.hungThreadThresholdMs == OrElse(LongProperty(props, prefix + "alerts.hungThreadThresholdMs"), old(alerts.hungThreadThresholdMs))
    ensures logging.level == FirstOf(StringProperty(props, prefix + "logging.level"), old(logging.level))
    ensures logging.output == FirstOf(StringProperty(props, prefix + "logging.output"), old(logging.output))
    ensures advanced.includeSystemThreads == OrElse(BooleanProperty(props, prefix + "advanced.includeSystemThreads"), old(advanced.includeSystemThreads))
    ensures advanced.maxStackTraceDepth == OrElse(IntProperty(props, prefix + "advanced.maxStackTraceDepth"), old(advanced.maxStackTraceDepth))
  {
    LoadDashboardProperties(dashboard, props, prefix);
    LoadSnapshotProperties(snapshot, props, prefix, parseDuration);
    LoadAlertsProperties(alerts, props, prefix);
    LoadLoggingProperties(logging, props, prefix);
    LoadAdvancedProperties(advanced, props, prefix);
  }

  /** The two dashboard variables of `loadFromEnvironment`. */
  method LoadDashboardEnvironment(d: DashboardConfig, env: Source)
    modifies d
    ensures d.enabled == OrElse(BooleanProperty(env, "THREADSCOPE_DASHBOARD_ENABLED"), old(d.enabled))
    ensures d.port == OrElse(IntProperty(env, "THREADSCOPE_DASHBOARD_PORT"), old(d.port))
    ensures d.autoOpenBrowser == old(d.autoOpenBrowser)
  {
    var dashboardEnabled := BooleanProperty(env, "THREADSCOPE_DASHBOARD_ENABLED");
    if dashboardEnabled.Some? {
      d.SetEnabled(dashboardEnabled.value);
    }
    var port := IntProperty(env, "THREADSCOPE_DASHBOARD_PORT");
    if port.Some? {
      d.SetPort(port.value);
    }
  }

  /** `loadFromEnvironment`: the four environment variables, each over its field. */
  method LoadFromEnvironment(config: ThreadScopeConfig, env: Source, parseDuration: string -> Option<Duration>)
    requires config.Complete()
    modifies config, config.Sections()
    ensures config.snapshot == old(config.snapshot) && config.snapshot.output == old(config.snapshot.output)
    ensures config.dashboard == old(config.dashboard) && config.alerts == old(config.alerts)
    ensures config.logging == old(config.logging) && config.advanced == old(config.advanced)
    ensures config.Complete() && config.Values() == EnvironmentApplied(old(config.Values()), env, parseDuration)
  {
    var snapshot, dashboard := config.snapshot, config.dashboard;
    var enabled := BooleanProperty(env, "THREADSCOPE_ENABLED");
    if enabled.Some? {
      config.SetEnabled(enabled.value);
    }
    LoadDashboardEnvironment(dashboard, env);
    var interval := IntervalProperty(env, "THREADSCOPE_SNAPSHOT_INTERVAL", parseDuration);
    if interval.Some? {
      snapshot.SetInterval(interval);
    }
  }

  /**
   * `load()`: a new default configuration, the YAML configuration merged in
   * when there is one, then the properties file without a prefix, the system
   * properties under "threadscope." and the environment. The YAML file and
   * the properties file are given as already read, `None` where the file is
   * missing or could not be read.
   */
  method Load(yaml: ThreadScopeConfig?, file: Option<Source>, system: Source, env: Source,
              parseDuration: string -> Option<Duration>) returns (config: ThreadScopeConfig)
    ensures fresh(config) && config.Complete()
    ensures config.Values() ==
      Loaded(if yaml == null then None else Some(old(ValuesOf(yaml))), file, system, env, parseDuration)
  {
    ghost var source := if yaml == null then None else Some(ValuesOf(yaml));
    config := new ThreadScopeConfig();
    if yaml != null {
      MergeConfig(config, yaml);
    }
    ghost var v0 := config.Values();
    assert v0 == if source.Some? then Merged(DEFAULTS, source.value) else DEFAULTS;
    if file.Some? {
      LoadFromProperties(config, file.value, "", parseDuration);
    }
    ghost var v1 := config.Values();
    assert v1 == if file.Some? then PropertiesApplied(v0, file.value, "", parseDuration) else v0;
    LoadFromProperties(config, system, "threadscope.", parseDuration);
    assert config.Values() == PropertiesApplied(v1, system, "threadscope.", parseDuration);
    LoadFromEnvironment(config, env, parseDuration);
  }
}
