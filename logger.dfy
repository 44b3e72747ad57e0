/**
 * The logger singleton's message handling: the type filter, the
 * suppression of one known noise message, the folding of consecutive
 * duplicates into a repeat-count line, the lazy opening of the log file,
 * and the buffer of recent lines handed to the application in batches.
 *
 * The file, the console and the application's batch signal are modelled
 * as the sequences of lines written to them. The clock, the thread name,
 * the application directory and whether opening a file succeeds are
 * inputs to each call.
 */
module Logger {
  import opened LogNaming

  /** The one message that is dropped whatever its type (desktop build). */
  const SuppressedMessage: string := "QSoundEffect(qaudio): Error decoding source"
  /** Buffer size at which recent lines are handed to the application. */
  const NotificationThreshold: nat := 10
  const DefaultMaxPreviousMessages: int := 1000
  const DefaultLogFileName: string := "TestLogger"
  const DefaultAppName: string := "TestLogger"

  /** Where a message was raised: source file, function and line. */
  datatype SourceContext = SourceContext(file: string, functionName: string, line: int)

  /**
   * What the handler reads from outside the logger on one call: the
   * formatted clock, the current thread's name, the application directory
   * and whether opening the log file would succeed.
   */
  datatype Environment = Environment(clock: string, threadName: string, appDir: string, openSucceeds: bool)

  /**
   * The logger's private data, plus what it has written so far and whether
   * `init` has installed the message handler.
   */
  datatype LogState = LogState(
    logTypes: seq<int>,
    logLevels: map<string, int>,
    loggerAppName: string,
    logFileName: string,
    echoToStdOut: bool,
    enableTimeStamp: bool,
    prevMsg: string,
    repeatedMessageCount: nat,
    previousMessages: seq<string>,
    maxPreviousMessages: int,
    logFilePath: string,
    logFileOpen: bool,
    fileLines: seq<string>,
    consoleLines: seq<string>,
    notifications: seq<seq<string>>,
    handlerInstalled: bool)

  /**
   * The state the constructor leaves. The private data is value-initialised,
   * so echo and timestamps start off; no type is enabled and no file is open.
   */
  function Fresh(): (s: LogState)
    ensures Valid(s)
  {
    LogState([], map[], DefaultAppName, DefaultLogFileName, false, false, "", 0, [],
             DefaultMaxPreviousMessages, "", false, [], [], [], false)
  }

  /** Every batch handed over holds 10 or 11 lines, and the buffer stays below 10. */
  predicate Valid(s: LogState)
  {
    |s.previousMessages| < NotificationThreshold
    && forall i :: 0 <= i < |s.notifications| ==>
         NotificationThreshold <= |s.notifications[i]| <= NotificationThreshold + 1
  }

  /** All batches handed to the application, in order, as one list of lines. */
  function Flatten(batches: seq<seq<string>>): seq<string>
  {
    if batches == [] then [] else Flatten(batches[..|batches| - 1]) + batches[|batches| - 1]
  }

  lemma FlattenAppend(batches: seq<seq<string>>, b: seq<string>)
    ensures Flatten(batches + [b]) == Flatten(batches) + b
  {
    assert (batches + [b])[..|batches|] == batches;
  }

  // ---------------------------------------------------------------------
  // Line formatting
  // ---------------------------------------------------------------------

  /** "<timestamp> [<level> <module> <thread>] <text>". */
  function FormatLine(timestamp: string, level: string, moduleName: string, thread: string, text: string): (line: string)
    ensures |line| == |timestamp| + |level| + |moduleName| + |thread| + |text| + 6
    ensures line[..|timestamp|] == timestamp
    ensures line[|line| - |text|..] == text
  {
    timestamp + " [" + level + " " + moduleName + " " + thread + "] " + text
  }

  /** The location appended to warning, critical and fatal lines. */
  function LocationSuffix(ctx: SourceContext): string
  {
    " in " + ctx.functionName + "at: " + ctx.file + ", line " + IntToString(ctx.line)
  }

  function RepeatText(count: nat): string
  {
    "(previous message repeats " + NatToString(count) + " times)"
  }

  /** Warning, critical and fatal lines carry the source location. */
  predicate HasLocation(msgType: int)
  {
    msgType == FatalMsg || msgType == CriticalMsg || msgType == WarningMsg
  }

  function Timestamp(s: LogState, env: Environment): string
  {
    if s.enableTimeStamp then env.clock else ""
  }

  function ThreadLabel(env: Environment): (name: string)
    ensures name != ""
  {
    if env.threadName == "" then "NoThread" else env.threadName
  }

  /** The line for the message itself. */
  function MessageLine(s: LogState, msgType: int, ctx: SourceContext, msg: string, env: Environment): string
  {
    FormatLine(Timestamp(s, env), LevelTag(msgType), ModuleName(ctx.file), ThreadLabel(env), msg)
    + (if HasLocation(msgType) then LocationSuffix(ctx) else "")
  }

  /** The line reporting how often the previous message repeated, in the new message's header. */
  function RepeatLine(s: LogState, msgType: int, ctx: SourceContext, env: Environment): string
  {
    FormatLine(Timestamp(s, env), LevelTag(msgType), ModuleName(ctx.file), ThreadLabel(env),
               RepeatText(s.repeatedMessageCount))
  }

  /** The file the handler opens when none is open: "<appDir>/<name>.log". */
  function DefaultLogPath(appDir: string, fileName: string): string
  {
    appDir + "/" + fileName + ".log"
  }

  // ---------------------------------------------------------------------
  // The handler
  // ---------------------------------------------------------------------

  /**
   * Writes `lines` to the file and, when echoing, to the console; queues
   * them; and hands the whole queue over once it holds at least
   * `NotificationThreshold` lines.
   */
  function Emit(s: LogState, lines: seq<string>): (r: LogState)
    ensures r.fileLines == s.fileLines + lines
    ensures r.consoleLines == if s.echoToStdOut then s.consoleLines + lines else s.consoleLines
    ensures Flatten(r.notifications) + r.previousMessages
            == Flatten(s.notifications) + s.previousMessages + lines
    ensures |r.previousMessages| < NotificationThreshold
    ensures |s.notifications| <= |r.notifications| <= |s.notifications| + 1
    ensures r.notifications[..|s.notifications|] == s.notifications
    ensures |r.notifications| == |s.notifications| + 1 ==>
              NotificationThreshold <= |r.notifications[|s.notifications|]| <= |s.previousMessages| + |lines|
    ensures r == s.(fileLines := r.fileLines, consoleLines := r.consoleLines,
                    previousMessages := r.previousMessages, notifications := r.notifications)
  {
    var queued := s.previousMessages + lines;
    if |queued| >= NotificationThreshold then
      FlattenAppend(s.notifications, queued);
      assert (s.notifications + [queued])[..|s.notifications|] == s.notifications;
      s.(fileLines := s.fileLines + lines,
         consoleLines := if s.echoToStdOut then s.consoleLines + lines else s.consoleLines,
         previousMessages := [],
         notifications := s.notifications + [queued])
    else
      s.(fileLines := s.fileLines + lines,
         consoleLines := if s.echoToStdOut then s.consoleLines + lines else s.consoleLines,
         previousMessages := queued)
  }

  /**
   * `messageHandler` for one message: drop it if its type is not enabled
   * or it is the suppressed text; count it if it repeats the previous
   * message; otherwise remember it, open the log file if needed (giving
   * up silently when that fails) and emit the repeat line, if any, and
   * the message line.
   */
  function HandleMessage(s: LogState, msgType: int, ctx: SourceContext, msg: string, env: Environment): (r: LogState)
    ensures msgType !in s.logTypes ==> r == s
    ensures r.logTypes == s.logTypes && r.logLevels == s.logLevels
  {
    if msgType !in s.logTypes then s
    else if msg == SuppressedMessage then s
    else if msg == s.prevMsg then s.(repeatedMessageCount := s.repeatedMessageCount + 1)
    else
      var repeated := if s.repeatedMessageCount > 0 then [RepeatLine(s, msgType, ctx, env)] else [];
      var line := MessageLine(s, msgType, ctx, msg, env);
      var s2 := Opened(s.(prevMsg := msg, repeatedMessageCount := 0), env);
      if !s2.logFileOpen then s2 else Emit(s2, repeated + [line])
  }

  /** The log file, opened as "<appDir>/<name>.log" when it is not open yet. */
  function Opened(s: LogState, env: Environment): (r: LogState)
    ensures r.logFileOpen <==> CanWrite(s, env)
    ensures s.logFileOpen ==> r == s
    ensures r == s.(logFilePath := r.logFilePath, logFileOpen := r.logFileOpen)
  {
    if s.logFileOpen then s
    else s.(logFilePath := DefaultLogPath(env.appDir, s.logFileName), logFileOpen := env.openSucceeds)
  }

  /** The message is logged: enabled type, not the suppressed text, not a repeat. */
  predicate Passes(s: LogState, msgType: int, msg: string)
  {
    msgType in s.logTypes && msg != SuppressedMessage && msg != s.prevMsg
  }

  /** The log file is or becomes open. */
  predicate CanWrite(s: LogState, env: Environment)
  {
    s.logFileOpen || env.openSucceeds
  }

  /** The suppressed text changes nothing, whatever its type. */
  lemma SuppressedIgnored(s: LogState, msgType: int, ctx: SourceContext, env: Environment)
    ensures HandleMessage(s, msgType, ctx, SuppressedMessage, env) == s
  {
  }

  /** A repeat of the previous message only bumps the counter: nothing is written. */
  lemma DuplicateOnlyCounts(s: LogState, msgType: int, ctx: SourceContext, env: Environment)
    requires msgType in s.logTypes && s.prevMsg != SuppressedMessage
    ensures HandleMessage(s, msgType, ctx, s.prevMsg, env)
            == s.(repeatedMessageCount := s.repeatedMessageCount + 1)
  {
  }

  /**
   * A new message is remembered and resets the counter; when the file can
   * be written, exactly its line is written, preceded by the repeat line
   * exactly when the previous message was repeated; with echo on, the
   * console receives the same lines.
   */
  lemma NewMessageLines(s: LogState, msgType: int, ctx: SourceContext, msg: string, env: Environment)
    requires Passes(s, msgType, msg)
    ensures HandleMessage(s, msgType, ctx, msg, env).prevMsg == msg
    ensures HandleMessage(s, msgType, ctx, msg, env).repeatedMessageCount == 0
    ensures CanWrite(s, env) && s.repeatedMessageCount > 0 ==>
              HandleMessage(s, msgType, ctx, msg, env).fileLines
              == s.fileLines + [RepeatLine(s, msgType, ctx, env), MessageLine(s, msgType, ctx, msg, env)]
    ensures CanWrite(s, env) && s.repeatedMessageCount == 0 ==>
              HandleMessage(s, msgType, ctx, msg, env).fileLines
              == s.fileLines + [MessageLine(s, msgType, ctx, msg, env)]
    ensures CanWrite(s, env) ==>
              var r := HandleMessage(s, msgType, ctx, msg, env);
              |s.fileLines| <= |r.fileLines|
              && r.consoleLines == if s.echoToStdOut then s.consoleLines + r.fileLines[|s.fileLines|..]
                                   else s.consoleLines
    ensures !CanWrite(s, env) ==>
              HandleMessage(s, msgType, ctx, msg, env).fileLines == s.fileLines
              && HandleMessage(s, msgType, ctx, msg, env).consoleLines == s.consoleLines
              && HandleMessage(s, msgType, ctx, msg, env).previousMessages == s.previousMessages
  {
    var repeated := if s.repeatedMessageCount > 0 then [RepeatLine(s, msgType, ctx, env)] else [];
    if CanWrite(s, env) && s.repeatedMessageCount > 0 {
      assert repeated + [MessageLine(s, msgType, ctx, msg, env)]
             == [RepeatLine(s, msgType, ctx, env), MessageLine(s, msgType, ctx, msg, env)];
    }
  }

  /** The repeat line ends with the count, and the count reads back from it. */
  lemma RepeatLineCount(s: LogState, msgType: int, ctx: SourceContext, env: Environment)
    ensures var line := RepeatLine(s, msgType, ctx, env);
            var text := RepeatText(s.repeatedMessageCount);
            && line[|line| - |text|..] == text
            && DecimalValue(text[26..|text| - 7]) == s.repeatedMessageCount
  {
    var text := RepeatText(s.repeatedMessageCount);
    var digits := NatToString(s.repeatedMessageCount);
    assert text[26..|text| - 7] == digits;
    NatToStringValue(s.repeatedMessageCount);
  }

  /**
   * Every line written to the file goes through the buffer: the batches
   * handed over followed by the buffer are exactly the lines written since.
   */
  lemma HandleMessageConservation(s: LogState, msgType: int, ctx: SourceContext, msg: string, env: Environment)
    ensures var r := HandleMessage(s, msgType, ctx, msg, env);
            && |s.fileLines| <= |r.fileLines| && r.fileLines[..|s.fileLines|] == s.fileLines
            && Flatten(r.notifications) + r.previousMessages
               == Flatten(s.notifications) + s.previousMessages + r.fileLines[|s.fileLines|..]
  {
    var r := HandleMessage(s, msgType, ctx, msg, env);
    if r.fileLines == s.fileLines {
      assert r.notifications == s.notifications && r.previousMessages == s.previousMessages;
      assert r.fileLines[|s.fileLines|..] == [];
    } else {
      assert Passes(s, msgType, msg);
    }
  }

  /** The handler keeps the buffer below the threshold and every batch at 10 or 11 lines. */
  lemma HandleMessageValid(s: LogState, msgType: int, ctx: SourceContext, msg: string, env: Environment)
    requires Valid(s)
    ensures Valid(HandleMessage(s, msgType, ctx, msg, env))
  {
    var r := HandleMessage(s, msgType, ctx, msg, env);
    if Passes(s, msgType, msg) && CanWrite(s, env) {
      var n := |s.notifications|;
      forall i | 0 <= i < |r.notifications|
        ensures NotificationThreshold <= |r.notifications[i]| <= NotificationThreshold + 1
      {
        if i < n {
          assert r.notifications[i] == r.notifications[..n][i];
        }
      }
    }
  }

  /** One input to the handler. */
  datatype LogCall = LogCall(msgType: int, ctx: SourceContext, msg: string, env: Environment)

  /** The handler applied to each call in turn. */
  function HandleAll(s: LogState, calls: seq<LogCall>): LogState
    decreases |calls|
  {
    if calls == [] then s
    else HandleAll(HandleMessage(s, calls[0].msgType, calls[0].ctx, calls[0].msg, calls[0].env), calls[1..])
  }

  /** A run of `k` repeats of the previous message writes nothing and counts `k`. */
  lemma {:induction false} RepeatedRun(s: LogState, calls: seq<LogCall>)
    requires s.prevMsg != SuppressedMessage
    requires forall i :: 0 <= i < |calls| ==> calls[i].msg == s.prevMsg && calls[i].msgType in s.logTypes
    ensures HandleAll(s, calls) == s.(repeatedMessageCount := s.repeatedMessageCount + |calls|)
    decreases |calls|
  {
    if calls != [] {
      var c := calls[0];
      DuplicateOnlyCounts(s, c.msgType, c.ctx, c.env);
      var s1 := s.(repeatedMessageCount := s.repeatedMessageCount + 1);
      assert forall i :: 0 <= i < |calls[1..]| ==> calls[1..][i] == calls[i + 1];
      RepeatedRun(s1, calls[1..]);
    }
  }

  /** `Valid` holds along any sequence of messages. */
  lemma {:induction false} HandleAllValid(s: LogState, calls: seq<LogCall>)
    requires Valid(s)
    ensures Valid(HandleAll(s, calls))
    decreases |calls|
  {
    if calls != [] {
      HandleMessageValid(s, calls[0].msgType, calls[0].ctx, calls[0].msg, calls[0].env);
      HandleAllValid(HandleMessage(s, calls[0].msgType, calls[0].ctx, calls[0].msg, calls[0].env), calls[1..]);
    }
  }

  /**
   * Since the remembered message starts empty, an empty message sent
   * before any other is counted as a repeat and never written.
   */
  lemma EmptyFirstMessage(types: seq<int>, msgType: int, ctx: SourceContext, env: Environment)
    requires msgType in types
    ensures var s := Fresh().(logTypes := types);
            HandleMessage(s, msgType, ctx, "", env).fileLines == []
  {
  }

  // ---------------------------------------------------------------------
  // Configuration
  // ---------------------------------------------------------------------

  datatype InitOutcome = InitOutcome(ok: bool, state: LogState)

  /**
   * `init`: reject an unusable base name; otherwise record it, turn echo
   * and timestamps on and rebuild the enabled types from the settings.
   */
  function Initialized(s: LogState, fileName: string, settings: LogSettings): (r: InitOutcome)
    ensures r.ok <==> CheckFileName(fileName) == NameOk
    ensures !r.ok ==> r.state == s
    ensures r.ok ==> r.state.handlerInstalled
    ensures r.ok ==> (DebugMsg in r.state.logTypes <==> settings.debug == 0)
                     && (WarningMsg in r.state.logTypes <==> settings.warning == 1)
                     && (InfoMsg in r.state.logTypes <==> settings.info == 4)
                     && FatalMsg !in r.state.logTypes
    ensures r.ok && settings == LogSettings(-1, -1, -1, -1) ==> r.state.logTypes == [CriticalMsg]
  {
    if CheckFileName(fileName) != NameOk then InitOutcome(false, s)
    else
      InitialLogTypesMembers(settings);
      DefaultLogTypes();
      InitOutcome(true, s.(logFileName := fileName, echoToStdOut := true, enableTimeStamp := true,
                           logTypes := InitialLogTypes(settings), handlerInstalled := true))
  }

  /**
   * `setLoggerLevel`: name the logger after the module, set its level (and,
   * for the empty module, every known module's level) and enable the type.
   */
  function WithLoggerLevel(s: LogState, minLevel: int, moduleName: string): (r: LogState)
    ensures r.logTypes == s.logTypes + [minLevel]
    ensures moduleName in r.logLevels && r.logLevels[moduleName] == minLevel
    ensures r.logLevels.Keys == s.logLevels.Keys + {moduleName}
    ensures forall k :: k in s.logLevels && k != moduleName ==>
              r.logLevels[k] == if moduleName == "" then minLevel else s.logLevels[k]
    ensures r.loggerAppName == moduleName
    ensures r == s.(loggerAppName := moduleName, logLevels := r.logLevels, logTypes := s.logTypes + [minLevel])
  {
    var levels := if moduleName == "" then map k | k in s.logLevels :: minLevel else s.logLevels;
    s.(loggerAppName := moduleName, logLevels := levels[moduleName := minLevel], logTypes := s.logTypes + [minLevel])
  }

  /** After `setLoggerLevel(t, m)`, messages of type `t` are no longer filtered out. */
  lemma SetLoggerLevelEnables(s: LogState, minLevel: int, moduleName: string, ctx: SourceContext, msg: string, env: Environment)
    requires msg != SuppressedMessage && msg != s.prevMsg && CanWrite(s, env)
    ensures var r := WithLoggerLevel(s, minLevel, moduleName);
            |HandleMessage(r, minLevel, ctx, msg, env).fileLines| > |r.fileLines|
  {
    var r := WithLoggerLevel(s, minLevel, moduleName);
    assert minLevel in r.logTypes;
    NewMessageLines(r, minLevel, ctx, msg, env);
  }

  /** After `clearLogTypes`, every message is dropped. */
  lemma ClearedDropsAll(s: LogState, msgType: int, ctx: SourceContext, msg: string, env: Environment)
    ensures HandleMessage(s.(logTypes := []), msgType, ctx, msg, env) == s.(logTypes := [])
  {
  }

  /**
   * `setLogFilePath` with its failure warning raised once the log mutex is
   * released: an empty path is ignored; otherwise the file is renamed and
   * reopened, and the call returns whether or not the open succeeds.
   */
  function WithLogFilePath(s: LogState, path: string, openSucceeds: bool): (r: LogState)
    ensures path == "" ==> r == s
    ensures path != "" ==> r.logFilePath == path && r.logFileOpen == openSucceeds
    ensures r == s.(logFilePath := r.logFilePath, logFileOpen := r.logFileOpen)
  {
    if path == "" then s else s.(logFilePath := path, logFileOpen := openSucceeds)
  }

  /** How a call ends: it returns with a new state, or it never returns. */
  datatype CallOutcome = Returned(state: LogState) | Deadlocked

  /**
   * `setLogFilePath` as written. The failed-open warning is raised while the
   * call still holds the log mutex; once `init` has installed the handler,
   * Qt runs the handler on the same thread, the handler waits for that same
   * non-recursive mutex before anything else, and the call never returns.
   */
  function SetLogFilePathAsWritten(s: LogState, path: string, openSucceeds: bool): (r: CallOutcome)
    ensures r.Deadlocked? <==> path != "" && !openSucceeds && s.handlerInstalled
    ensures r.Returned? ==> r.state == WithLogFilePath(s, path, openSucceeds)
  {
    if path != "" && !openSucceeds && s.handlerInstalled then Deadlocked
    else Returned(WithLogFilePath(s, path, openSucceeds))
  }

  /** After a successful `init`, a log path that cannot be opened hangs the call. */
  lemma FailedOpenDeadlocks(s: LogState, settings: LogSettings)
    ensures Initialized(s, "log", settings).ok
    ensures SetLogFilePathAsWritten(Initialized(s, "log", settings).state, "/no/such/dir/x.log", false) == Deadlocked
  {
  }

  /**
   * With the warning raised after the mutex is released, a failed open
   * leaves the logger working: the next message that passes the filters
   * reopens the default file and, when that open succeeds, is written.
   */
  lemma FailedPathStillLogs(s: LogState, path: string, msgType: int, ctx: SourceContext, msg: string, env: Environment)
    requires path != "" && Passes(s, msgType, msg)
    ensures !WithLogFilePath(s, path, false).logFileOpen
    ensures HandleMessage(WithLogFilePath(s, path, false), msgType, ctx, msg, env).logFileOpen == env.openSucceeds
    ensures env.openSucceeds ==>
              |HandleMessage(WithLogFilePath(s, path, false), msgType, ctx, msg, env).fileLines| > |s.fileLines|
  {
  }

  /** The logger singleton. */
  class CLogger {
    var logTypes: seq<int>
    var logLevels: map<string, int>
    var loggerAppName: string
    var logFileName: string
    var echoToStdOut: bool
    var enableTimeStamp: bool
    var prevMsg: string
    /** Per thread in the source; one thread here. */
    var repeatedMessageCount: nat
    var previousMessages: seq<string>
    var maxPreviousMessages: int
    var logFilePath: string
    var logFileOpen: bool
    var fileLines: seq<string>
    var consoleLines: seq<string>
    var notifications: seq<seq<string>>
    var handlerInstalled: bool

    function State(): LogState
      reads this
    {
      LogState(logTypes, logLevels, loggerAppName, logFileName, echoToStdOut, enableTimeStamp,
               prevMsg, repeatedMessageCount, previousMessages, maxPreviousMessages,
               logFilePath, logFileOpen, fileLines, consoleLines, notifications, handlerInstalled)
    }

    /** Creates the private data with the default buffer size. */
    constructor()
      ensures State() == Fresh()
    {
      logTypes := [];
      logLevels := map[];
      loggerAppName := DefaultAppName;
      logFileName := DefaultLogFileName;
      echoToStdOut := false;
      enableTimeStamp := false;
      prevMsg := "";
      repeatedMessageCount := 0;
      previousMessages := [];
      maxPreviousMessages := DefaultMaxPreviousMessages;
      logFilePath := "";
      logFileOpen := false;
      fileLines := [];
      consoleLines := [];
      notifications := [];
      handlerInstalled := false;
    }

    method Init(fileName: string, settings: LogSettings) returns (ok: bool)
      modifies this
      ensures InitOutcome(ok, State()) == Initialized(old(State()), fileName, settings)
    {
      if fileName == [] {
        return false;
      }
      if FindDotDot(fileName, 0) || '/' in fileName || '\\' in fileName {
        return false;
      }
      if !MatchesSafePattern(fileName) {
        return false;
      }
      logFileName := fileName;
      echoToStdOut := true;
      enableTimeStamp := true;
      logTypes := BuildLogTypes(settings);
      handlerInstalled := true;
      return true;
    }

    /** The clear and the up to five inserts of `init`. */
    static method BuildLogTypes(settings: LogSettings) returns (types: seq<int>)
      ensures types == InitialLogTypes(settings)
    {
      types := [];
      if settings.debug == -1 && settings.warning == -1 && settings.critical == -1 {
        types := ListInsert(types, 0, CriticalMsg);
      }
      if settings.debug == 0 {
        types := ListInsert(types, 0, DebugMsg);
      }
      if settings.warning == 1 {
        types := ListInsert(types, 1, WarningMsg);
      }
      if settings.critical == 2 {
        types := ListInsert(types, 2, CriticalMsg);
      }
      if settings.info == 4 {
        types := ListInsert(types, 4, InfoMsg);
      }
    }

    method MessageHandler(msgType: int, ctx: SourceContext, msg: string, env: Environment)
      modifies this
      ensures State() == HandleMessage(old(State()), msgType, ctx, msg, env)
    {
      if msgType !in logTypes {
        return;
      }
      if msg == SuppressedMessage {
        return;
      }
      var repeatedMessageString, logMessage := FormatMessage(msgType, ctx, msg, env);
      if msg == prevMsg {
        repeatedMessageCount := repeatedMessageCount + 1;
        return;
      }
      ghost var written := (if repeatedMessageCount > 0 then [RepeatLine(State(), msgType, ctx, env)] else [])
                           + [MessageLine(State(), msgType, ctx, msg, env)];
      repeatedMessageCount := 0;
      prevMsg := msg;
      OpenLogFile(env);
      if !logFileOpen {
        return;
      }
      var lines := if repeatedMessageString != "" then [repeatedMessageString, logMessage] else [logMessage];
      assert lines == written;
      WriteLines(lines);
    }

    /**
     * The two lines a new message may produce: the repeat line (empty when
     * the previous message did not repeat) and the message line.
     */
    method FormatMessage(msgType: int, ctx: SourceContext, msg: string, env: Environment)
      returns (repeatedMessageString: string, logMessage: string)
      ensures repeatedMessageString == if repeatedMessageCount > 0 then RepeatLine(State(), msgType, ctx, env) else ""
      ensures repeatedMessageCount > 0 ==> repeatedMessageString != ""
      ensures logMessage == MessageLine(State(), msgType, ctx, msg, env)
    {
      var timestamp := if enableTimeStamp then env.clock else "";
      var moduleName := if FindQml(ctx.file, 0) then "QML" else "App";
      var levelString := "UNK";
      if 0 <= msgType < |LevelList| {
        levelString := LevelList[msgType];
      }
      var threadName := env.threadName;
      if threadName == "" {
        threadName := "NoThread";
      }
      repeatedMessageString := "";
      if repeatedMessageCount > 0 {
        repeatedMessageString := FormatLine(timestamp, levelString, moduleName, threadName,
                                            RepeatText(repeatedMessageCount));
      }
      logMessage := FormatLine(timestamp, levelString, moduleName, threadName, msg);
      if msgType == FatalMsg || msgType == CriticalMsg || msgType == WarningMsg {
        logMessage := logMessage + LocationSuffix(ctx);
      }
    }

    /** Opens the default log file if no file is open; a failed open leaves it closed. */
    method OpenLogFile(env: Environment)
      modifies this
      ensures State() == Opened(old(State()), env)
    {
      if !logFileOpen {
        logFilePath := DefaultLogPath(env.appDir, logFileName);
        logFileOpen := env.openSucceeds;
      }
    }

    /** Writes to the file and the console, queues, and hands over a full queue. */
    method WriteLines(lines: seq<string>)
      modifies this
      ensures State() == Emit(old(State()), lines)
    {
      fileLines := fileLines + lines;
      if echoToStdOut {
        consoleLines := consoleLines + lines;
      }
      previousMessages := previousMessages + lines;
      if |previousMessages| >= NotificationThreshold {
        notifications := notifications + [previousMessages];
        previousMessages := [];
      }
    }

    method SetLoggerLevel(minLevel: int, moduleName: string)
      modifies this
      ensures State() == WithLoggerLevel(old(State()), minLevel, moduleName)
    {
      loggerAppName := moduleName;
      if moduleName == "" {
        logLevels := map k | k in logLevels :: minLevel;
      }
      logLevels := logLevels[moduleName := minLevel];
      logTypes := logTypes + [minLevel];
    }

    method PreviousMessageBufferSize() returns (size: int)
      ensures size == maxPreviousMessages
    {
      size := maxPreviousMessages;
    }

    method SetPreviousMessageBufferSize(size: int)
      modifies this
      ensures State() == old(State()).(maxPreviousMessages := size)
    {
      maxPreviousMessages := size;
    }

    method LogFilePath() returns (path: string)
      ensures path == logFilePath
    {
      path := logFilePath;
    }

    method SetLogFilePath(path: string, openSucceeds: bool)
      modifies this
      ensures State() == WithLogFilePath(old(State()), path, openSucceeds)
    {
      if path == "" {
        return;
      }
      logFileOpen := false;  // the close() of a file that is open
      logFilePath := path;
      logFileOpen := openSucceeds;
    }

    method SetEchoToStandardOut(value: bool)
      modifies this
      ensures State() == old(State()).(echoToStdOut := value)
    {
      echoToStdOut := value;
    }

    method SetEnableTimeStamp(value: bool)
      modifies this
      ensures State() == old(State()).(enableTimeStamp := value)
    {
      enableTimeStamp := value;
    }

    method ClearLogTypes()
      modifies this
      ensures State() == old(State()).(logTypes := [])
    {
      logTypes := [];
    }
  }
}
