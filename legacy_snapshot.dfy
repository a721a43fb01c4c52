/**
 * The legacy `SnapshotGenerator`: each snapshot goes to
 * `threadscope-<timestamp>.json` (through Jackson) when the configured
 * format is "json" or "both", then to `threadscope-<timestamp>.html` when it
 * is "html" or "both", compared without regard to case. The timestamp is
 * formatted before the `try`, so a formatting failure reaches the caller;
 * anything that fails inside the `try` is logged and ends the generation.
 */
module LegacySnapshot {
  import opened Common
  import opened Management
  import opened SnapshotText
  import LegacyThreadInfo
  import LegacyDeadlock
  import LegacyConfig

  /**
   * `ThreadMonitor.Snapshot`. The timestamp is the instant's ISO-8601 text,
   * which is what the page shows.
   */
  datatype Snapshot = Snapshot(
    timestamp: string,
    threads: seq<LegacyThreadInfo.ThreadInfo>,
    deadlocks: seq<LegacyDeadlock.DeadlockInfo>,
    totalThreads: int,
    activeThreads: int)

  datatype SnapshotFormat = JSON | HTML

  // ---------------------------------------------------------------------
  // Which files are written
  // ---------------------------------------------------------------------

  /** The JSON test of `generateSnapshot`; a null format matches neither word. */
  predicate WritesJson(format: Option<string>)
  {
    format.Some? && (EqualsIgnoreCase("json", format.value) || EqualsIgnoreCase("both", format.value))
  }

  /** The HTML test of `generateSnapshot`. */
  predicate WritesHtml(format: Option<string>)
  {
    format.Some? && (EqualsIgnoreCase("html", format.value) || EqualsIgnoreCase("both", format.value))
  }

  /** The files a format asks for, in the order they are written: JSON first. */
  function Selected(format: Option<string>): (fs: seq<SnapshotFormat>)
  {
    (if WritesJson(format) then [JSON] else []) + (if WritesHtml(format) then [HTML] else [])
  }

  /**
   * "both" in any case writes JSON then HTML, "json" and "html" only their
   * own file, and every other format, or none, writes nothing.
   */
  lemma SelectedFormats(format: Option<string>)
    ensures format.Some? && EqualsIgnoreCase("both", format.value) ==> Selected(format) == [JSON, HTML]
    ensures format.Some? && EqualsIgnoreCase("json", format.value) ==> Selected(format) == [JSON]
    ensures format.Some? && EqualsIgnoreCase("html", format.value) ==> Selected(format) == [HTML]
    ensures Selected(format) != [] <==>
      format.Some? && (EqualsIgnoreCase("both", format.value) || EqualsIgnoreCase("json", format.value) || EqualsIgnoreCase("html", format.value))
  {
    if format.Some? {
      var f := format.value;
      if EqualsIgnoreCase("both", f) {
        assert LowerChar(f[0]) == 'b';
      } else if EqualsIgnoreCase("json", f) {
        assert LowerChar(f[0]) == 'j';
      } else if EqualsIgnoreCase("html", f) {
        assert LowerChar(f[0]) == 'h';
      }
    }
  }

  /** The extension of each file. */
  function Extension(f: SnapshotFormat): (e: string)
  {
    if f == JSON then ".json" else ".html"
  }

  /**
   * The page written to a file: Jackson's serialisation of the snapshot, or
   * the HTML page. Jackson's text is not part of this model.
   */
  datatype Page = JacksonPage(snapshot: Snapshot) | HtmlPage(snapshot: Snapshot)

  function PageOf(f: SnapshotFormat, s: Snapshot): (p: Page)
    ensures p.snapshot == s && (p.HtmlPage? <==> f.HTML?)
  {
    if f == JSON then JacksonPage(s) else HtmlPage(s)
  }

  function FileFor(f: SnapshotFormat, base: string, directory: string, s: Snapshot): (w: Written<Page>)
    ensures w.directory == directory && w.fileName == base + Extension(f) && w.content == PageOf(f, s)
  {
    Written(directory, base + Extension(f), PageOf(f, s))
  }

  function FilesFor(fs: seq<SnapshotFormat>, base: string, directory: string, s: Snapshot): (ws: seq<Written<Page>>)
    ensures |ws| == |fs| && forall i :: 0 <= i < |fs| ==> ws[i] == FileFor(fs[i], base, directory, s)
  {
    seq(|fs|, i requires 0 <= i < |fs| => FileFor(fs[i], base, directory, s))
  }

  /**
   * What `generateSnapshot` sees of the configuration: nothing when the
   * snapshot section or its output section is null, otherwise the format
   * and directory texts, either of which may be null.
   */
  datatype OutputView = Missing | Output(format: Option<string>, directory: Option<string>)

  function OutputOf(config: LegacyConfig.ThreadScopeConfig): (v: OutputView)
    reads config, config.snapshot
    reads if config.snapshot != null then {config.snapshot.output} else {}
    ensures v.Output? <==> config.snapshot != null && config.snapshot.output != null
  {
    if config.snapshot == null || config.snapshot.output == null then Missing
    else Output(config.snapshot.output.format, config.snapshot.output.directory)
  }

  /** The files one call writes, and whether its `catch` logged an error. */
  datatype Generation = Generation(files: seq<Written<Page>>, errorLogged: bool)

  /**
   * What `generateSnapshot` does, given the outcome of formatting the
   * timestamp. A missing section throws at its getter and a null directory
   * throws in `Paths.get`, both inside the `try`, before anything is written.
   */
  function Generated(out: OutputView, stamp: Fetch<string>, s: Snapshot): (r: Fetch<Generation>)
    ensures r.Threw? <==> stamp.Threw?
    ensures r.Ok? && out.Missing? ==> r.value == Generation([], true)
    ensures r.Ok? && out.Output? && out.directory.None? ==> r.value == Generation([], Selected(out.format) != [])
    ensures r.Ok? && out.Output? && out.directory.Some? ==>
      !r.value.errorLogged && |r.value.files| == |Selected(out.format)| &&
      forall i :: 0 <= i < |r.value.files| ==>
        r.value.files[i].directory == out.directory.value &&
        r.value.files[i].fileName == BaseFileName(stamp.value) + Extension(Selected(out.format)[i]) &&
        r.value.files[i].content == PageOf(Selected(out.format)[i], s)
  {
    match stamp
    case Threw => Threw
    case Ok(timestamp) =>
      if out.Missing? then Ok(Generation([], true))
      else if out.directory.None? then Ok(Generation([], Selected(out.format) != []))
      else Ok(Generation(FilesFor(Selected(out.format), BaseFileName(timestamp), out.directory.value, s), false))
  }

  /** `SnapshotGenerator`, which keeps the configuration object it is given and reads it on every call. */
  class SnapshotGenerator {
    const config: LegacyConfig.ThreadScopeConfig
    const timestampFormat: TimestampFormat

    /** `new SnapshotGenerator(config)`, with the timestamp formatter given a zone. */
    constructor(config: LegacyConfig.ThreadScopeConfig)
      ensures this.config == config && timestampFormat == ZONED_TIMESTAMP_FORMAT
    {
      this.config := config;
      this.timestampFormat := ZONED_TIMESTAMP_FORMAT;
    }

    /**
     * `generateSnapshot`. `local` is the snapshot instant's
     * `yyyyMMdd-HHmmss` text in the formatter's zone.
     */
    method GenerateSnapshot(s: Snapshot, local: string) returns (r: Fetch<Generation>)
      ensures r == Generated(OutputOf(config), FormatInstant(timestampFormat, local), s)
    {
      var stamp := FormatInstant(timestampFormat, local);
      if stamp.Threw? {
        return Threw;
      }
      var base := BaseFileName(stamp.value);
      if config.snapshot == null || config.snapshot.output == null {
        return Ok(Generation([], true));
      }
      var format := config.snapshot.output.format;
      var directory := config.snapshot.output.directory;
      var files := [];
      if WritesJson(format) {
        if directory.None? {
          return Ok(Generation(files, true));
        }
        files := files + [FileFor(JSON, base, directory.value, s)];
      }
      if WritesHtml(format) {
        if directory.None? {
          return Ok(Generation(files, true));
        }
        files := files + [FileFor(HTML, base, directory.value, s)];
      }
      if directory.Some? {
        assert files == FilesFor(Selected(format), base, directory.value, s);
      }
      return Ok(Generation(files, false));
    }
  }

  /**
   * The formatter as declared has no zone, so formatting throws before the
   * `try` and `generateSnapshot` never writes a file.
   */
  lemma UnzonedStampThrows(out: OutputView, local: string, s: Snapshot)
    ensures Generated(out, FormatInstant(TIMESTAMP_FORMAT, local), s) == Threw
  {
  }

  /**
   * With a zone and a directory, "both" writes `threadscope-<timestamp>.json`
   * and then `threadscope-<timestamp>.html`.
   */
  lemma ZonedStampWritesBoth(format: string, directory: string, local: string, s: Snapshot)
    requires EqualsIgnoreCase("both", format)
    ensures var r := Generated(Output(Some(format), Some(directory)), FormatInstant(ZONED_TIMESTAMP_FORMAT, local), s);
      r.Ok? && !r.value.errorLogged && |r.value.files| == 2 &&
      r.value.files[0] == Written(directory, "threadscope-" + local + ".json", JacksonPage(s)) &&
      r.value.files[1] == Written(directory, "threadscope-" + local + ".html", HtmlPage(s))
  {
    SelectedFormats(Some(format));
  }

  // ---------------------------------------------------------------------
  // The HTML page
  // ---------------------------------------------------------------------

  /** `getCssStyles`. */
  const CSS_STYLES: string :=
    "body {\n" +
    "    font-family: -apple-system, BlinkMacSystemFont, 'Segoe UI', Roboto, sans-serif;\n" +
    "    margin: 0;\n" +
    "    padding: 20px;\n" +
    "    background-color: #f5f5f5;\n" +
    "}\n" +
    ".header {\n" +
    "    background: white;\n" +
    "    padding: 20px;\n" +
    "    border-radius: 8px;\n" +
    "    box-shadow: 0 2px 4px rgba(0,0,0,0.1);\n" +
    "    margin-bottom: 20px;\n" +
    "}\n" +
    ".header h1 {\n" +
    "    margin: 0 0 10px 0;\n" +
    "    color: #333;\n" +
    "}\n" +
    ".deadlocks {\n" +
    "    background: #fff3cd;\n" +
    "    border: 1px solid #ffeaa7;\n" +
    "    padding: 20px;\n" +
    "    border-radius: 8px;\n" +
    "    margin-bottom: 20px;\n" +
    "}\n" +
    ".deadlocks h2 {\n" +
    "    color: #856404;\n" +
    "    margin-top: 0;\n" +
    "}\n" +
    ".deadlock {\n" +
    "    background: white;\n" +
    "    padding: 15px;\n" +
    "    border-radius: 4px;\n" +
    "    margin: 10px 0;\n" +
    "}\n" +
    ".threads {\n" +
    "    background: white;\n" +
    "    padding: 20px;\n" +
    "    border-radius: 8px;\n" +
    "    box-shadow: 0 2px 4px rgba(0,0,0,0.1);\n" +
    "}\n" +
    ".thread {\n" +
    "    border: 1px solid #e0e0e0;\n" +
    "    border-radius: 4px;\n" +
    "    margin: 15px 0;\n" +
    "    padding: 15px;\n" +
    "}\n" +
    ".thread h3 {\n" +
    "    margin: 0 0 10px 0;\n" +
    "    color: #333;\n" +
    "}\n" +
    ".thread-info p {\n" +
    "    margin: 5px 0;\n" +
    "}\n" +
    ".state-runnable { color: #28a745; font-weight: bold; }\n" +
    ".state-blocked { color: #dc3545; font-weight: bold; }\n" +
    ".state-waiting { color: #ffc107; font-weight: bold; }\n" +
    ".state-timed_waiting { color: #17a2b8; font-weight: bold; }\n" +
    ".state-terminated { color: #6c757d; font-weight: bold; }\n" +
    ".stack-trace {\n" +
    "    margin-top: 10px;\n" +
    "}\n" +
    ".stack-trace pre {\n" +
    "    background: #f8f9fa;\n" +
    "    padding: 10px;\n" +
    "    border-radius: 4px;\n" +
    "    overflow-x: auto;\n" +
    "    font-size: 12px;\n" +
    "}"

  /** The opening of the deadlocks section, with its warning-sign heading. */
  const DEADLOCKS_OPEN: string :=
    "    <div class=\"deadlocks\">\n" +
    "        <h2>\U{26A0}\U{FE0F} Deadlocks Detected</h2>\n"

  const DEADLOCKS_CLOSE: string := "    </div>\n"

  /** The lines the deadlocks loop appends for one cycle. */
  function DeadlockBlock(d: LegacyDeadlock.DeadlockInfo): (r: string)
  {
    "        <div class=\"deadlock\">\n" +
    "            <h3>Deadlock Cycle " + IntToString(d.cycleId) + "</h3>\n" +
    "            <p>Threads involved: " + LongListToString(d.threadIds) + "</p>\n" +
    "        </div>\n"
  }

  function DeadlockBlocks(ds: seq<LegacyDeadlock.DeadlockInfo>): (r: seq<string>)
    ensures |r| == |ds| && forall i :: 0 <= i < |ds| ==> r[i] == DeadlockBlock(ds[i])
  {
    seq(|ds|, i requires 0 <= i < |ds| => DeadlockBlock(ds[i]))
  }

  /**
   * The deadlocks section: nothing when there is no deadlock, otherwise the
   * opening, one block per cycle in list order, and the closing line.
   */
  function DeadlocksSection(ds: seq<LegacyDeadlock.DeadlockInfo>): (r: string)
    ensures r == "" <==> |ds| == 0
    ensures |ds| > 0 ==> StartsWith(r, DEADLOCKS_OPEN)
  {
    if |ds| == 0 then ""
    else DEADLOCKS_OPEN + Concat(DeadlockBlocks(ds)) + DEADLOCKS_CLOSE
  }

  /** The deadlocks part of `generateHtmlContent`. */
  method AppendDeadlocks(ds: seq<LegacyDeadlock.DeadlockInfo>) returns (html: string)
    ensures html == DeadlocksSection(ds)
  {
    if |ds| == 0 {
      return "";
    }
    html := DEADLOCKS_OPEN;
    for i := 0 to |ds|
      invariant html == DEADLOCKS_OPEN + Concat(DeadlockBlocks(ds)[..i])
    {
      var block :=
        "        <div class=\"deadlock\">\n" +
        "            <h3>Deadlock Cycle " + IntToString(ds[i].cycleId) + "</h3>\n" +
        "            <p>Threads involved: " + LongListToString(ds[i].threadIds) + "</p>\n" +
        "        </div>\n";
      assert block == DeadlockBlock(ds[i]);
      ghost var blocks := DeadlockBlocks(ds);
      TakeOneMore(blocks, i);
      ConcatAppend(blocks[..i], blocks[i]);
      AppendAssociates(DEADLOCKS_OPEN, Concat(blocks[..i]), block);
      html := html + block;
    }
    assert DeadlockBlocks(ds)[..|ds|] == DeadlockBlocks(ds);
    html := html + DEADLOCKS_CLOSE;
  }

  /**
   * Cycle `i` has its block in the section right after the blocks of the
   * cycles before it, and a later cycle's block starts after it ends.
   */
  lemma DeadlockBlocksInOrder(ds: seq<LegacyDeadlock.DeadlockInfo>, i: nat, j: nat)
    requires i < j <= |ds|
    ensures OccursAt(DeadlocksSection(ds), DeadlockBlock(ds[i]), |DEADLOCKS_OPEN| + |Concat(DeadlockBlocks(ds)[..i])|)
    ensures |Concat(DeadlockBlocks(ds)[..i])| + |DeadlockBlock(ds[i])| <= |Concat(DeadlockBlocks(ds)[..j])|
  {
    PartBetween(DEADLOCKS_OPEN, DeadlockBlocks(ds), DEADLOCKS_CLOSE, i);
    PartsInOrder(DeadlockBlocks(ds), i, j);
  }

  /** The lock-name line, present only when the thread waits on a lock. */
  function LockLine(t: LegacyThreadInfo.ThreadInfo): (r: string)
    ensures r == "" <==> t.lockName.None?
  {
    if t.lockName.Some? then "                <p><strong>Waiting for lock:</strong> " + EscapeHtml(t.lockName) + "</p>\n" else ""
  }

  /** The lock-owner line, present only when the lock has an owner. */
  function OwnerLine(t: LegacyThreadInfo.ThreadInfo): (r: string)
    ensures r == "" <==> t.lockOwnerName.None?
  {
    if t.lockOwnerName.Some? then "                <p><strong>Lock owner:</strong> " + EscapeHtml(t.lockOwnerName) + "</p>\n" else ""
  }

  /** The CPU line, present only for a positive CPU time, in whole milliseconds. */
  function CpuLine(cpuTime: int): (r: string)
    ensures r == "" <==> cpuTime <= 0
    ensures cpuTime > 0 ==> r == "                <p><strong>CPU Time:</strong> " + NatToString(cpuTime / 1_000_000) + " ms</p>\n"
  {
    if cpuTime > 0 then "                <p><strong>CPU Time:</strong> " + IntToString(cpuTime / 1_000_000) + " ms</p>\n" else ""
  }

  /** One line of the stack listing: the frame's text, escaped, and a line break. */
  function FrameLine(f: StackFrame): (r: string)
  {
    EscapeHtml(Some(f.text)) + "\n"
  }

  function FrameLines(stack: seq<StackFrame>): (r: seq<string>)
    ensures |r| == |stack| && forall i :: 0 <= i < |stack| ==> r[i] == FrameLine(stack[i])
  {
    seq(|stack|, i requires 0 <= i < |stack| => FrameLine(stack[i]))
  }

  const STACK_OPEN: string :=
    "                <div class=\"stack-trace\">\n" +
    "                    <h4>Stack Trace:</h4>\n" +
    "                    <pre>"

  const STACK_CLOSE: string :=
    "                    </pre>\n" +
    "                </div>\n"

  /** The stack block: nothing for a null or empty stack, otherwise one line per frame. */
  function StackBlock(stack: Option<seq<StackFrame>>): (r: string)
    ensures r == "" <==> stack.None? || |stack.value| == 0
  {
    if stack.None? || |stack.value| == 0 then ""
    else STACK_OPEN + Concat(FrameLines(stack.value)) + STACK_CLOSE
  }

  /** The loop over the frames. */
  method AppendStackTrace(stack: Option<seq<StackFrame>>) returns (html: string)
    ensures html == StackBlock(stack)
  {
    if stack.None? || |stack.value| == 0 {
      return "";
    }
    var frames := stack.value;
    html := STACK_OPEN;
    for i := 0 to |frames|
      invariant html == STACK_OPEN + Concat(FrameLines(frames)[..i])
    {
      var line := EscapeHtml(Some(frames[i].text)) + "\n";
      ghost var lines := FrameLines(frames);
      TakeOneMore(lines, i);
      ConcatAppend(lines[..i], lines[i]);
      AppendAssociates(STACK_OPEN, Concat(lines[..i]), line);
      html := html + line;
    }
    assert FrameLines(frames)[..|frames|] == FrameLines(frames);
    html := html + STACK_CLOSE;
  }

  /**
   * Frame `i` has its escaped line in the stack block right after the lines
   * of the frames above it, and no raw markup character comes from the frame's text.
   */
  lemma FrameLinesInOrder(stack: seq<StackFrame>, i: nat)
    requires i < |stack|
    ensures OccursAt(StackBlock(Some(stack)), Escaped(stack[i].text) + "\n", |STACK_OPEN| + |Concat(FrameLines(stack)[..i])|)
    ensures Unescape(Escaped(stack[i].text)) == stack[i].text
    ensures forall k :: 0 <= k < |Escaped(stack[i].text)| ==> Escaped(stack[i].text)[k] !in "<>\"'"
  {
    PartBetween(STACK_OPEN, FrameLines(stack), STACK_CLOSE, i);
    EscapeRoundTrip(stack[i].text);
    EscapedClean(stack[i].text);
  }

  /** The heading and fixed lines of a thread's block. The state's class is its lower-cased name. */
  function ThreadHeader(t: LegacyThreadInfo.ThreadInfo): (r: string)
  {
    "        <div class=\"thread\">\n" +
    "            <h3>" + EscapeHtml(Some(t.name)) + "</h3>\n" +
    "            <div class=\"thread-info\">\n" +
    "                <p><strong>ID:</strong> " + IntToString(t.id) + "</p>\n" +
    "                <p><strong>State:</strong> <span class=\"state-" + ToLowerAscii(t.state) + "\">" + t.state + "</span></p>\n" +
    "                <p><strong>Priority:</strong> " + IntToString(t.priority) + "</p>\n" +
    "                <p><strong>Daemon:</strong> " + BoolToString(t.isDaemon) + "</p>\n"
  }

  /** The lines present only when the thread has what they show. */
  function ThreadDetails(t: LegacyThreadInfo.ThreadInfo): (r: string)
  {
    LockLine(t) + OwnerLine(t) + CpuLine(t.cpuTime) + StackBlock(t.stackTrace)
  }

  const THREAD_CLOSE: string := "            </div>\n" + "        </div>\n"

  /** One thread's block. */
  function ThreadHtml(t: LegacyThreadInfo.ThreadInfo): (r: string)
  {
    ThreadHeader(t) + ThreadDetails(t) + THREAD_CLOSE
  }

  /** The body of the threads loop, with its conditional lines. */
  method AppendThread(t: LegacyThreadInfo.ThreadInfo) returns (html: string)
    ensures html == ThreadHtml(t)
  {
    html :=
      "        <div class=\"thread\">\n" +
      "            <h3>" + EscapeHtml(Some(t.name)) + "</h3>\n" +
      "            <div class=\"thread-info\">\n" +
      "                <p><strong>ID:</strong> " + IntToString(t.id) + "</p>\n" +
      "                <p><strong>State:</strong> <span class=\"state-" + ToLowerAscii(t.state) + "\">" + t.state + "</span></p>\n" +
      "                <p><strong>Priority:</strong> " + IntToString(t.priority) + "</p>\n" +
      "                <p><strong>Daemon:</strong> " + BoolToString(t.isDaemon) + "</p>\n";
    assert html == ThreadHeader(t);
    var lock := "";
    if t.lockName.Some? {
      lock := "                <p><strong>Waiting for lock:</strong> " + EscapeHtml(t.lockName) + "</p>\n";
    }
    assert lock == LockLine(t);
    var owner := "";
    if t.lockOwnerName.Some? {
      owner := "                <p><strong>Lock owner:</strong> " + EscapeHtml(t.lockOwnerName) + "</p>\n";
    }
    assert owner == OwnerLine(t);
    var cpu := "";
    if t.cpuTime > 0 {
      cpu := "                <p><strong>CPU Time:</strong> " + IntToString(t.cpuTime / 1_000_000) + " ms</p>\n";
    }
    assert cpu == CpuLine(t.cpuTime);
    var stack := AppendStackTrace(t.stackTrace);
    var details := lock + owner + cpu + stack;
    html := html + details + THREAD_CLOSE;
  }

  function ThreadBlocks(ts: seq<LegacyThreadInfo.ThreadInfo>): (r: seq<string>)
    ensures |r| == |ts| && forall i :: 0 <= i < |ts| ==> r[i] == ThreadHtml(ts[i])
  {
    seq(|ts|, i requires 0 <= i < |ts| => ThreadHtml(ts[i]))
  }

  /** The thread blocks, one after another. */
  function ThreadsSection(ts: seq<LegacyThreadInfo.ThreadInfo>): (r: string)
  {
    Concat(ThreadBlocks(ts))
  }

  /** The loop over the threads. */
  method AppendThreads(ts: seq<LegacyThreadInfo.ThreadInfo>) returns (html: string)
    ensures html == ThreadsSection(ts)
  {
    ghost var blocks := ThreadBlocks(ts);
    html := "";
    for i := 0 to |ts|
      invariant html == Concat(blocks[..i])
    {
      var block := AppendThread(ts[i]);
      assert block == blocks[i];
      ConcatStep(blocks, i);
      html := html + block;
    }
    TakeAll(blocks);
  }

  /**
   * Every thread has its block in the threads section, right after the
   * blocks of the threads before it, and a later thread's block starts after
   * it ends.
   */
  lemma ThreadBlocksInOrder(ts: seq<LegacyThreadInfo.ThreadInfo>, i: nat, j: nat)
    requires i < j <= |ts|
    ensures OccursAt(ThreadsSection(ts), ThreadHtml(ts[i]), |Concat(ThreadBlocks(ts)[..i])|)
    ensures |Concat(ThreadBlocks(ts)[..i])| + |ThreadHtml(ts[i])| <= |Concat(ThreadBlocks(ts)[..j])|
  {
    PartAt(ThreadBlocks(ts), i);
    PartsInOrder(ThreadBlocks(ts), i, j);
  }

  /**
   * A thread's name appears in its heading escaped, so the text between the
   * heading tags holds no raw markup character and reads back as the name.
   */
  lemma ThreadHeadingEscaped(t: LegacyThreadInfo.ThreadInfo)
    ensures EscapeHtml(Some(t.name)) == Escaped(t.name)
    ensures Unescape(EscapeHtml(Some(t.name))) == t.name
    ensures forall k :: 0 <= k < |EscapeHtml(Some(t.name))| ==> EscapeHtml(Some(t.name))[k] !in "<>\"'"
  {
    EscapeRoundTrip(t.name);
    EscapedClean(t.name);
  }

  /** The page up to the thread blocks. */
  function PageHead(s: Snapshot): (r: string)
  {
    "<!DOCTYPE html>\n" +
    "<html>\n" +
    "<head>\n" +
    "    <title>ThreadScope Snapshot - " + s.timestamp + "</title>\n" +
    "    <style>\n" +
    CSS_STYLES +
    "    </style>\n" +
    "</head>\n" +
    "<body>\n" +
    "    <div class=\"header\">\n" +
    "        <h1>ThreadScope Snapshot</h1>\n" +
    "        <p>Generated: " + s.timestamp + "</p>\n" +
    "        <p>Total Threads: " + IntToString(s.totalThreads) + " | " +
    "Active Threads: " + IntToString(s.activeThreads) + "</p>\n" +
    "    </div>\n" +
    DeadlocksSection(s.deadlocks) +
    "    <div class=\"threads\">\n" +
    "        <h2>Threads (" + NatToString(|s.threads|) + ")</h2>\n"
  }

  /** The page after the thread blocks. */
  const PAGE_TAIL: string := "    </div>\n" + "</body>\n" + "</html>\n"

  /** `generateHtmlContent`. */
  function HtmlContent(s: Snapshot): (r: string)
  {
    PageHead(s) + ThreadsSection(s.threads) + PAGE_TAIL
  }

  /** `generateHtmlContent`, one `StringBuilder` filled section by section. */
  method GenerateHtmlContent(s: Snapshot) returns (html: string)
    ensures html == HtmlContent(s)
  {
    var deadlocks := AppendDeadlocks(s.deadlocks);
    var head :=
      "<!DOCTYPE html>\n" +
      "<html>\n" +
      "<head>\n" +
      "    <title>ThreadScope Snapshot - " + s.timestamp + "</title>\n" +
      "    <style>\n" +
      CSS_STYLES +
      "    </style>\n" +
      "</head>\n" +
      "<body>\n" +
      "    <div class=\"header\">\n" +
      "        <h1>ThreadScope Snapshot</h1>\n" +
      "        <p>Generated: " + s.timestamp + "</p>\n" +
      "        <p>Total Threads: " + IntToString(s.totalThreads) + " | " +
      "Active Threads: " + IntToString(s.activeThreads) + "</p>\n" +
      "    </div>\n" +
      deadlocks +
      "    <div class=\"threads\">\n" +
      "        <h2>Threads (" + NatToString(|s.threads|) + ")</h2>\n";
    assert head == PageHead(s);
    var threads := AppendThreads(s.threads);
    html := head + threads + PAGE_TAIL;
  }

  /** `generateHtmlSnapshot`'s text; Jackson's is not part of this model. */
  method RenderHtml(p: Page) returns (text: string)
    requires p.HtmlPage?
    ensures text == HtmlContent(p.snapshot)
  {
    text := GenerateHtmlContent(p.snapshot);
  }
}
