/**
 * The new core's `SnapshotGenerator`: a fixed list of two output strategies,
 * HTML then JSON, each run only when the configured format selects it, each
 * writing `threadscope-<timestamp>` plus its own extension into the
 * configured directory. The generation runs on an executor and completes a
 * future; here it is one synchronous call whose outcome is either the files
 * to write or the exception that fails the future.
 */
module CoreSnapshot {
  import opened Common
  import opened Management
  import opened SnapshotText
  import CoreThreadInfo
  import CoreConfig

  /**
   * `SnapshotGenerator.DeadlockInfo`. The confidence is in tenths, as
   * everywhere in this model.
   */
  datatype DeadlockInfo = DeadlockInfo(cycleId: int, threadIds: seq<int>, confidence: int)

  /** `SnapshotGenerator.SnapshotData`; the timestamp is the instant's ISO-8601 text. */
  datatype SnapshotData = SnapshotData(
    timestamp: string,
    threads: seq<CoreThreadInfo.ThreadInfo>,
    deadlocks: seq<DeadlockInfo>,
    totalThreads: int,
    activeThreads: int)

  /** `SnapshotGenerator.SnapshotFormat`. */
  datatype SnapshotFormat = HTML | JSON

  // ---------------------------------------------------------------------
  // Which strategies run
  // ---------------------------------------------------------------------

  /**
   * `shouldGenerateFormat`: BOTH selects every strategy, HTML and JSON only
   * their own, and a null format falls through to `return false`.
   */
  predicate ShouldGenerateFormat(configFormat: Option<CoreConfig.OutputFormat>, format: SnapshotFormat)
  {
    if configFormat == Some(CoreConfig.OutputFormat.HTML) then format == HTML
    else if configFormat == Some(CoreConfig.OutputFormat.JSON) then format == JSON
    else configFormat == Some(CoreConfig.OutputFormat.BOTH)
  }

  /** `initializeStrategies`: HTML, then JSON. */
  const STRATEGIES: seq<SnapshotFormat> := [HTML, JSON]

  /** The strategies that run, in the order they run. */
  function Selected(configFormat: Option<CoreConfig.OutputFormat>): (fs: seq<SnapshotFormat>)
  {
    Filter(STRATEGIES, (f: SnapshotFormat) => ShouldGenerateFormat(configFormat, f))
  }

  /**
   * Each configured format runs exactly the strategies it names, HTML before
   * JSON; a null format runs none.
   */
  lemma SelectedFormats(configFormat: Option<CoreConfig.OutputFormat>)
    ensures configFormat == Some(CoreConfig.OutputFormat.BOTH) ==> Selected(configFormat) == [HTML, JSON]
    ensures configFormat == Some(CoreConfig.OutputFormat.HTML) ==> Selected(configFormat) == [HTML]
    ensures configFormat == Some(CoreConfig.OutputFormat.JSON) ==> Selected(configFormat) == [JSON]
    ensures configFormat.None? ==> Selected(configFormat) == []
  {
    var p := (f: SnapshotFormat) => ShouldGenerateFormat(configFormat, f);
    assert STRATEGIES[1..] == [JSON] && [JSON][1..] == [];
    assert Filter(STRATEGIES, p) == (if p(HTML) then [HTML] else []) + Filter([JSON], p);
    assert Filter([JSON], p) == (if p(JSON) then [JSON] else []) + Filter([], p);
  }

  // ---------------------------------------------------------------------
  // The HTML strategy
  // ---------------------------------------------------------------------

  /** `String.format("%.2f", tenths / 10.0)` in a locale that writes a decimal point. */
  function TwoDecimals(tenths: int): (r: string)
  {
    var m: nat := if tenths < 0 then 0 - tenths else tenths;
    (if tenths < 0 then "-" else "") + NatToString(m / 10) + "." + [DigitChar(m % 10)] + "0"
  }

  /** `getCssStyles`. */
  const CSS_STYLES: string :=
    "body { font-family: -apple-system, BlinkMacSystemFont, 'Segoe UI', Roboto, sans-serif; margin: 0; padding: 20px; background-color: #f5f5f5; }\n" +
    ".header { background: white; padding: 20px; border-radius: 8px; box-shadow: 0 2px 4px rgba(0,0,0,0.1); margin-bottom: 20px; }\n" +
    ".deadlocks { background: #fff3cd; border: 1px solid #ffeaa7; padding: 20px; border-radius: 8px; margin-bottom: 20px; }\n" +
    ".threads { background: white; padding: 20px; border-radius: 8px; box-shadow: 0 2px 4px rgba(0,0,0,0.1); }\n" +
    ".thread { border: 1px solid #e0e0e0; border-radius: 4px; margin: 15px 0; padding: 15px; background: #fafafa; }\n" +
    ".state-RUNNABLE { color: #28a745; font-weight: bold; }\n" +
    ".state-BLOCKED { color: #dc3545; font-weight: bold; }\n" +
    ".state-WAITING { color: #ffc107; font-weight: bold; }\n" +
    ".stack-trace { margin-top: 10px; background: #f8f9fa; padding: 10px; border-radius: 4px; font-family: 'Courier New', monospace; font-size: 0.8em; }"

  /** The opening of the deadlocks section, with its warning-sign heading. */
  const DEADLOCKS_OPEN: string := "<div class=\"deadlocks\">" + "<h2>\U{26A0}\U{FE0F} Deadlocks Detected</h2>"

  /** The block the loop of `generateDeadlocksSection` appends for one deadlock. */
  function DeadlockBlock(d: DeadlockInfo): (r: string)
  {
    "<div class=\"deadlock\">" +
    "<h3>Deadlock Cycle " + IntToString(d.cycleId) + "</h3>" +
    "<p>Threads involved: " + LongListToString(d.threadIds) + "</p>" +
    "<p>Confidence: " + TwoDecimals(d.confidence) + "</p>" +
    "</div>"
  }

  function DeadlockBlocks(ds: seq<DeadlockInfo>): (r: seq<string>)
    ensures |r| == |ds| && forall i :: 0 <= i < |ds| ==> r[i] == DeadlockBlock(ds[i])
  {
    seq(|ds|, i requires 0 <= i < |ds| => DeadlockBlock(ds[i]))
  }

  /**
   * `generateDeadlocksSection`: nothing at all when there is no deadlock;
   * otherwise the opening, one block per deadlock in list order, and the
   * closing tag.
   */
  function DeadlocksSection(ds: seq<DeadlockInfo>): (r: string)
    ensures r == "" <==> |ds| == 0
    ensures |ds| > 0 ==> StartsWith(r, DEADLOCKS_OPEN)
  {
    if |ds| == 0 then ""
    else DEADLOCKS_OPEN + Concat(DeadlockBlocks(ds)) + "</div>"
  }

  /** The section's `StringBuilder` loop. */
  method GenerateDeadlocksSection(ds: seq<DeadlockInfo>) returns (html: string)
    ensures html == DeadlocksSection(ds)
  {
    if |ds| == 0 {
      return "";
    }
    html := DEADLOCKS_OPEN;
    for i := 0 to |ds|
      invariant html == DEADLOCKS_OPEN + Concat(DeadlockBlocks(ds)[..i])
    {
      var block :=
        "<div class=\"deadlock\">" +
        "<h3>Deadlock Cycle " + IntToString(ds[i].cycleId) + "</h3>" +
        "<p>Threads involved: " + LongListToString(ds[i].threadIds) + "</p>" +
        "<p>Confidence: " + TwoDecimals(ds[i].confidence) + "</p>" +
        "</div>";
      assert block == DeadlockBlock(ds[i]);
      ghost var blocks := DeadlockBlocks(ds);
      TakeOneMore(blocks, i);
      ConcatAppend(blocks[..i], blocks[i]);
      AppendAssociates(DEADLOCKS_OPEN, Concat(blocks[..i]), block);
      html := html + block;
    }
    assert DeadlockBlocks(ds)[..|ds|] == DeadlockBlocks(ds);
    html := html + "</div>";
  }

  /**
   * Deadlock `i` has its block in the section right after the blocks of the
   * deadlocks before it, and a later deadlock's block starts after it ends.
   */
  lemma DeadlockBlocksInOrder(ds: seq<DeadlockInfo>, i: nat, j: nat)
    requires i < j <= |ds|
    ensures OccursAt(DeadlocksSection(ds), DeadlockBlock(ds[i]), |DEADLOCKS_OPEN| + |Concat(DeadlockBlocks(ds)[..i])|)
    ensures |Concat(DeadlockBlocks(ds)[..i])| + |DeadlockBlock(ds[i])| <= |Concat(DeadlockBlocks(ds)[..j])|
  {
    PartBetween(DEADLOCKS_OPEN, DeadlockBlocks(ds), "</div>", i);
    PartsInOrder(DeadlockBlocks(ds), i, j);
  }

  /** The lock lines of `generateThreadHtml`, each present only when its name is. */
  function LockInfo(t: CoreThreadInfo.ThreadInfo): (r: string)
    ensures r == "" <==> t.lockName.None? && t.lockOwnerName.None?
  {
    (if t.lockName.Some? then "<p><strong>Waiting for lock:</strong> " + EscapeHtml(t.lockName) + "</p>" else "") +
    (if t.lockOwnerName.Some? then "<p><strong>Lock owner:</strong> " + EscapeHtml(t.lockOwnerName) + "</p>" else "")
  }

  /** The CPU line of `generateThreadHtml`: present only for a positive CPU time, in whole milliseconds. */
  function CpuInfo(cpuTime: int): (r: string)
    ensures r == "" <==> cpuTime <= 0
    ensures cpuTime > 0 ==> r == "<p><strong>CPU Time:</strong> " + NatToString(cpuTime / 1_000_000) + " ms</p>"
  {
    if cpuTime > 0 then "<p><strong>CPU Time:</strong> " + IntToString(cpuTime / 1_000_000) + " ms</p>" else ""
  }

  /** `generateStackTraceHtml`: nothing for an empty stack, otherwise one escaped line per frame. */
  function StackTraceHtml(stack: seq<StackFrame>): (r: string)
    ensures r == "" <==> |stack| == 0
  {
    if |stack| == 0 then ""
    else
      "<div class=\"stack-trace\">\n" +
      "    <h4>Stack Trace:</h4>\n" +
      "    <pre>" + Join(FrameLines(stack), "\n") + "</pre>\n" +
      "</div>"
  }

  /** Each frame's `toString`, escaped. */
  function FrameLines(stack: seq<StackFrame>): (r: seq<string>)
    ensures |r| == |stack| && forall i :: 0 <= i < |stack| ==> r[i] == EscapeHtml(Some(stack[i].text))
  {
    seq(|stack|, i requires 0 <= i < |stack| => EscapeHtml(Some(stack[i].text)))
  }

  /** `generateThreadHtml`. The state's class is its lower-cased name. */
  function ThreadHtml(t: CoreThreadInfo.ThreadInfo): (r: string)
  {
    "<div class=\"thread\">\n" +
    "    <h3>" + EscapeHtml(Some(t.name)) + "</h3>\n" +
    "    <div class=\"thread-info\">\n" +
    "        <p><strong>ID:</strong> " + IntToString(t.id) + "</p>\n" +
    "        <p><strong>State:</strong> <span class=\"state-" + ToLowerAscii(StateName(t.state)) + "\">" + StateName(t.state) + "</span></p>\n" +
    "        <p><strong>Priority:</strong> " + IntToString(t.priority) + "</p>\n" +
    "        <p><strong>Daemon:</strong> " + BoolToString(t.isDaemon) + "</p>\n" +
    "        " + LockInfo(t) + "\n" +
    "        " + CpuInfo(t.cpuTime) + "\n" +
    "    </div>\n" +
    "    " + StackTraceHtml(t.stackTrace) + "\n" +
    "</div>"
  }

  function ThreadBlocks(ts: seq<CoreThreadInfo.ThreadInfo>): (r: seq<string>)
    ensures |r| == |ts| && forall i :: 0 <= i < |ts| ==> r[i] == ThreadHtml(ts[i])
  {
    seq(|ts|, i requires 0 <= i < |ts| => ThreadHtml(ts[i]))
  }

  /** `generateThreadsSection`: the thread blocks joined with nothing between them. */
  function ThreadsSection(ts: seq<CoreThreadInfo.ThreadInfo>): (r: string)
  {
    Concat(ThreadBlocks(ts))
  }

  /** The page up to the threads section. */
  function PageHead(data: SnapshotData): (r: string)
  {
    "<!DOCTYPE html>\n" +
    "<html>\n" +
    "<head>\n" +
    "    <title>ThreadScope Snapshot - " + data.timestamp + "</title>\n" +
    "    <style>" + CSS_STYLES + "</style>\n" +
    "</head>\n" +
    "<body>\n" +
    "    <div class=\"header\">\n" +
    "        <h1>ThreadScope Snapshot</h1>\n" +
    "        <p>Generated: " + data.timestamp + "</p>\n" +
    "        <p>Total Threads: " + IntToString(data.totalThreads) + " | Active Threads: " + IntToString(data.activeThreads) + "</p>\n" +
    "    </div>\n" +
    "    " + DeadlocksSection(data.deadlocks) + "\n" +
    "    <div class=\"threads\">\n" +
    "        <h2>Threads (" + NatToString(|data.threads|) + ")</h2>\n" +
    "        "
  }

  /** `generateHtmlContent`. */
  function HtmlContent(data: SnapshotData): (r: string)
  {
    PageHead(data) + ThreadsSection(data.threads) + PAGE_TAIL
  }

  /** The page after the threads section. */
  const PAGE_TAIL: string := "\n" + "    </div>\n" + "</body>\n" + "</html>"

  /**
   * Every thread has its block in the threads section, right after the
   * blocks of the threads before it, and a later thread's block starts after
   * it ends.
   */
  lemma ThreadBlocksInOrder(ts: seq<CoreThreadInfo.ThreadInfo>, i: nat, j: nat)
    requires i < j <= |ts|
    ensures OccursAt(ThreadsSection(ts), ThreadHtml(ts[i]), |Concat(ThreadBlocks(ts)[..i])|)
    ensures |Concat(ThreadBlocks(ts)[..i])| + |ThreadHtml(ts[i])| <= |Concat(ThreadBlocks(ts)[..j])|
  {
    PartAt(ThreadBlocks(ts), i);
    PartsInOrder(ThreadBlocks(ts), i, j);
  }

  /** `generateHtmlContent`, with the deadlocks section built by its loop. */
  method GenerateHtmlContent(data: SnapshotData) returns (html: string)
    ensures html == HtmlContent(data)
  {
    var deadlocks := GenerateDeadlocksSection(data.deadlocks);
    var head :=
      "<!DOCTYPE html>\n" +
      "<html>\n" +
      "<head>\n" +
      "    <title>ThreadScope Snapshot - " + data.timestamp + "</title>\n" +
      "    <style>" + CSS_STYLES + "</style>\n" +
      "</head>\n" +
      "<body>\n" +
      "    <div class=\"header\">\n" +
      "        <h1>ThreadScope Snapshot</h1>\n" +
      "        <p>Generated: " + data.timestamp + "</p>\n" +
      "        <p>Total Threads: " + IntToString(data.totalThreads) + " | Active Threads: " + IntToString(data.activeThreads) + "</p>\n" +
      "    </div>\n" +
      "    " + deadlocks + "\n" +
      "    <div class=\"threads\">\n" +
      "        <h2>Threads (" + NatToString(|data.threads|) + ")</h2>\n" +
      "        ";
    assert head == PageHead(data);
    html := head + ThreadsSection(data.threads) + PAGE_TAIL;
  }

  // ---------------------------------------------------------------------
  // The JSON strategy
  // ---------------------------------------------------------------------

  /** `Collectors.joining(", ", "[", "]")`. */
  function JsonList(items: seq<string>): (r: string)
  {
    "[" + Join(items, ", ") + "]"
  }

  /** A list is framed by brackets, so no element gives "[]" and one element stands alone inside them. */
  lemma JsonListFraming(items: seq<string>)
    ensures StartsWith(JsonList(items), "[") && JsonList(items)[|JsonList(items)| - 1] == ']'
    ensures |items| == 0 ==> JsonList(items) == "[]"
    ensures |items| == 1 ==> JsonList(items) == "[" + items[0] + "]"
    ensures |items| > 1 ==> JsonList(items) == "[" + items[0] + ", " + Join(items[1..], ", ") + "]"
  {
  }

  /** `AsyncThreadType.name()`. */
  function AsyncTypeName(c: CoreThreadInfo.AsyncThreadType): (s: string)
  {
    match c
    case COMPLETABLE_FUTURE => "COMPLETABLE_FUTURE"
    case REACTIVE_STREAMS => "REACTIVE_STREAMS"
    case THREAD_POOL => "THREAD_POOL"
    case WEB_SERVER => "WEB_SERVER"
    case SCHEDULED_TASK => "SCHEDULED_TASK"
    case OTHER_ASYNC => "OTHER_ASYNC"
    case UNKNOWN => "UNKNOWN"
  }

  /** One element of the deadlocks array. */
  function DeadlockJson(d: DeadlockInfo): (r: string)
  {
    "{\n" +
    "  \"cycleId\": " + IntToString(d.cycleId) + ",\n" +
    "  \"threadIds\": " + LongListToString(d.threadIds) + ",\n" +
    "  \"confidence\": " + TwoDecimals(d.confidence) + "\n" +
    "}"
  }

  /** One element of the threads array. The name is written as it is, without escaping. */
  function ThreadJson(t: CoreThreadInfo.ThreadInfo): (r: string)
  {
    "{\n" +
    "  \"id\": " + IntToString(t.id) + ",\n" +
    "  \"name\": \"" + t.name + "\",\n" +
    "  \"state\": \"" + StateName(t.state) + "\",\n" +
    "  \"priority\": " + IntToString(t.priority) + ",\n" +
    "  \"daemon\": " + BoolToString(t.isDaemon) + ",\n" +
    "  \"asyncThread\": " + BoolToString(t.isAsyncThread) + ",\n" +
    "  \"asyncType\": \"" + AsyncTypeName(t.asyncThreadType) + "\"\n" +
    "}"
  }

  /** `generateDeadlocksJson`. */
  function DeadlocksJson(ds: seq<DeadlockInfo>): (r: string)
  {
    JsonList(seq(|ds|, i requires 0 <= i < |ds| => DeadlockJson(ds[i])))
  }

  /** `generateThreadsJson`. */
  function ThreadsJson(ts: seq<CoreThreadInfo.ThreadInfo>): (r: string)
  {
    JsonList(seq(|ts|, i requires 0 <= i < |ts| => ThreadJson(ts[i])))
  }

  /** With no thread or no deadlock, the array is written as "[]". */
  lemma EmptyJsonArrays(data: SnapshotData)
    ensures |data.threads| == 0 ==> ThreadsJson(data.threads) == "[]"
    ensures |data.deadlocks| == 0 ==> DeadlocksJson(data.deadlocks) == "[]"
  {
    JsonListFraming([]);
    if |data.threads| == 0 {
      assert seq(|data.threads|, i requires 0 <= i < |data.threads| => ThreadJson(data.threads[i])) == [];
    }
    if |data.deadlocks| == 0 {
      assert seq(|data.deadlocks|, i requires 0 <= i < |data.deadlocks| => DeadlockJson(data.deadlocks[i])) == [];
    }
  }

  /** `generateJsonContent`. */
  function JsonContent(data: SnapshotData): (r: string)
  {
    "{\n" +
    "  \"timestamp\": \"" + data.timestamp + "\",\n" +
    "  \"totalThreads\": " + IntToString(data.totalThreads) + ",\n" +
    "  \"activeThreads\": " + IntToString(data.activeThreads) + ",\n" +
    "  \"deadlocks\": " + DeadlocksJson(data.deadlocks) + ",\n" +
    "  \"threads\": " + ThreadsJson(data.threads) + "\n" +
    "}"
  }

  // ---------------------------------------------------------------------
  // generateSnapshot
  // ---------------------------------------------------------------------

  /** The extension each strategy appends to the base name. */
  function Extension(f: SnapshotFormat): (e: string)
  {
    if f == HTML then ".html" else ".json"
  }

  /** The page a strategy renders from the snapshot data. */
  datatype Page = HtmlPage(data: SnapshotData) | JsonPage(data: SnapshotData)

  /** The text of a page, as written to its file. */
  function Text(p: Page): (r: string)
  {
    match p
    case HtmlPage(data) => HtmlContent(data)
    case JsonPage(data) => JsonContent(data)
  }

  function PageOf(f: SnapshotFormat, data: SnapshotData): (p: Page)
    ensures p.data == data && (p.HtmlPage? <==> f == HTML)
  {
    if f == HTML then HtmlPage(data) else JsonPage(data)
  }

  /** The file one strategy writes. */
  function FileFor(f: SnapshotFormat, base: string, directory: string, data: SnapshotData): (w: Written<Page>)
    ensures w.directory == directory && w.fileName == base + Extension(f) && w.content == PageOf(f, data)
  {
    Written(directory, base + Extension(f), PageOf(f, data))
  }

  function FilesFor(fs: seq<SnapshotFormat>, base: string, directory: string, data: SnapshotData): (ws: seq<Written<Page>>)
    ensures |ws| == |fs| && forall i :: 0 <= i < |fs| ==> ws[i] == FileFor(fs[i], base, directory, data)
  {
    seq(|fs|, i requires 0 <= i < |fs| => FileFor(fs[i], base, directory, data))
  }

  /**
   * What `generateSnapshot` writes, given the outcome of formatting the
   * timestamp. A null directory makes `createOutputDirectory`'s
   * `Paths.get(null)` throw, and a formatting failure throws too; either
   * fails the whole generation before any strategy runs. Otherwise each
   * selected strategy writes its file.
   */
  function Generated(format: Option<CoreConfig.OutputFormat>, directory: Option<string>, stamp: Fetch<string>, data: SnapshotData):
    (r: Fetch<seq<Written<Page>>>)
    ensures r.Threw? <==> directory.None? || stamp.Threw?
  {
    if directory.None? then Threw
    else
      match stamp
      case Threw => Threw
      case Ok(timestamp) => Ok(FilesFor(Selected(format), BaseFileName(timestamp), directory.value, data))
  }

  /** `SnapshotGenerator`. The executor is left out: generation runs to completion on the call. */
  class SnapshotGenerator {
    const config: CoreConfig.ThreadScopeConfig
    /** `initializeStrategies()`. */
    const strategies: seq<SnapshotFormat> := STRATEGIES
    const timestampFormat: TimestampFormat

    /**
     * `new SnapshotGenerator(config)`, with the timestamp formatter given a
     * zone so that it can format an instant.
     */
    constructor(config: CoreConfig.ThreadScopeConfig)
      ensures this.config == config && timestampFormat == ZONED_TIMESTAMP_FORMAT
    {
      this.config := config;
      this.timestampFormat := ZONED_TIMESTAMP_FORMAT;
    }

    /**
     * `generateSnapshot`: resolve the output directory, format the
     * timestamp, then run each strategy in order if the configured format
     * selects it. `local` is the snapshot instant's `yyyyMMdd-HHmmss` text
     * in the formatter's zone.
     */
    method GenerateSnapshot(data: SnapshotData, local: string) returns (r: Fetch<seq<Written<Page>>>)
      ensures r == Generated(config.snapshot.format, config.snapshot.directory, FormatInstant(timestampFormat, local), data)
    {
      if config.snapshot.directory.None? {
        // createOutputDirectory: Paths.get(null) throws.
        return Threw;
      }
      var directory := config.snapshot.directory.value;
      var stamp := FormatInstant(timestampFormat, local);
      if stamp.Threw? {
        return Threw;
      }
      var base := BaseFileName(stamp.value);
      var format := config.snapshot.format;
      var p := (f: SnapshotFormat) => ShouldGenerateFormat(format, f);
      var files: seq<Written<Page>> := [];
      for i := 0 to |strategies|
        invariant files == FilesFor(Filter(strategies[..i], p), base, directory, data)
      {
        assert strategies[..i + 1] == strategies[..i] + [strategies[i]];
        FilterAppend(strategies[..i], strategies[i], p);
        if ShouldGenerateFormat(format, strategies[i]) {
          files := files + [FileFor(strategies[i], base, directory, data)];
        }
      }
      assert strategies[..|strategies|] == STRATEGIES;
      return Ok(files);
    }
  }

  /** `strategy.generate`: the text each strategy writes, the HTML page built as `generateHtmlContent` builds it. */
  method Render(p: Page) returns (text: string)
    ensures text == Text(p)
  {
    match p
    case HtmlPage(data) =>
      text := GenerateHtmlContent(data);
    case JsonPage(data) =>
      text := JsonContent(data);
  }

  /**
   * The formatter as declared has no zone, so formatting the timestamp
   * always throws and `generateSnapshot` never writes a file, whatever the
   * configuration.
   */
  lemma UnzonedStampWritesNothing(format: Option<CoreConfig.OutputFormat>, directory: Option<string>, local: string, data: SnapshotData)
    ensures Generated(format, directory, FormatInstant(TIMESTAMP_FORMAT, local), data) == Threw
  {
  }

  /**
   * With a zone, every selected strategy writes `threadscope-<timestamp>`
   * plus its extension: BOTH writes the HTML file, then the JSON file.
   */
  lemma ZonedStampWritesSelected(format: Option<CoreConfig.OutputFormat>, directory: string, local: string, data: SnapshotData)
    ensures var r := Generated(format, Some(directory), FormatInstant(ZONED_TIMESTAMP_FORMAT, local), data);
      r.Ok? && |r.value| == |Selected(format)| &&
      (forall i :: 0 <= i < |r.value| ==>
        r.value[i].directory == directory &&
        r.value[i].fileName == "threadscope-" + local + Extension(Selected(format)[i])) &&
      (format == Some(CoreConfig.OutputFormat.BOTH) ==>
        r.value[0].fileName == "threadscope-" + local + ".html" &&
        r.value[1].fileName == "threadscope-" + local + ".json")
  {
    SelectedFormats(format);
  }

  /** A null directory fails the generation whatever the format and the timestamp. */
  lemma NullDirectoryFails(format: Option<CoreConfig.OutputFormat>, stamp: Fetch<string>, data: SnapshotData)
    ensures Generated(format, None, stamp, data) == Threw
  {
  }

  /**
   * A null format selects no strategy: the generation completes and writes
   * no file, once the directory and the timestamp are resolved.
   */
  lemma NullFormatWritesNothing(directory: string, local: string, data: SnapshotData)
    ensures Generated(None, Some(directory), FormatInstant(ZONED_TIMESTAMP_FORMAT, local), data) == Ok([])
  {
    SelectedFormats(None);
  }
}
