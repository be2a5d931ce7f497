/**
 The asynchronous logging utility as a single-threaded abstraction.

 The process-wide state (message queue, thread register, threshold,
 termination flag, log file) is one immutable record, and every entry point
 is a pure transition on it. Locks and thread spawning only serialise these
 steps, so each step is atomic here. Outputs are two sequences of lines: the
 lines appended to the log file during this run, and the lines printed on the
 console. A line is stored without its trailing newline.

 Inputs the source takes from the platform are parameters: the stringified
 id of the calling thread, the formatted timestamp, and whether an
 allocation, a thread creation, a file open, a write or a close succeeds.
 */
module LogUtil {
  import opened Optional
  import opened LogLevels

  /** One node of the message queue. `tag` is the caller's UUID or raw thread id. */
  datatype Record = Record(level: int, tag: string, message: string, timestamp: string)

  /** The process-wide state of the logging utility. */
  datatype LogState = LogState(
    queue: seq<Record>,
    register: map<string, string>,
    serverLogLevel: int,
    terminateThreads: bool,
    logFilePath: string,
    fileOpen: bool,
    fileLines: seq<string>,
    consoleLines: seq<string>)

  const LOG_FILE_SUFFIX: string := "/log.txt"

  // Diagnostics the utility prints on the console.
  const MSG_OPEN_FAILED: string := "XX Error opening log file for writing. XX "
  const MSG_NODE_ALLOC_FAILED: string := "XX Failed to allocate memory for a new message node XX "
  const MSG_SPAWN_FAILED: string := "Error creating child thread during log writer"
  const MSG_CLEANUP_DONE: string := "** Log util resources cleanup successfull. **"
  const MSG_CLOSE_FAILED: string := "XX Error closing Log File. XX"

  /** The tag a record gets: the registered UUID of the thread, else the raw thread id. */
  function Tag(register: map<string, string>, threadId: string): (t: string)
    ensures t in register.Values || t == threadId
    ensures threadId in register ==> t == register[threadId]
    ensures threadId !in register ==> t == threadId
  {
    if threadId in register then register[threadId] else threadId
  }

  /** The text of one output line: "<timestamp> <LEVEL> <tag> <message>". */
  function FormatLine(timestamp: string, levelName: string, tag: string, message: string): (line: string)
    ensures |line| == |timestamp| + |levelName| + |tag| + |message| + 3
    ensures line[..|timestamp|] == timestamp
    ensures line[|timestamp|] == ' '
    ensures line[|timestamp| + 1..|timestamp| + 1 + |levelName|] == levelName
    ensures line[|timestamp| + 1 + |levelName|] == ' '
    ensures line[|timestamp| + 2 + |levelName|..|timestamp| + 2 + |levelName| + |tag|] == tag
    ensures line[|timestamp| + 2 + |levelName| + |tag|] == ' '
    ensures line[|timestamp| + 3 + |levelName| + |tag|..] == message
  {
    timestamp + " " + levelName + " " + tag + " " + message
  }

  /** Whether the consumer writes a record of this level under this threshold. */
  predicate Admitted(level: int, threshold: int) {
    IsLevel(level) && level >= threshold
  }

  /** The line the consumer writes for an admitted record. */
  function RecordLine(r: Record): string
    requires IsLevel(r.level)
  {
    FormatLine(r.timestamp, LevelNames[r.level], r.tag, r.message)
  }

  /** Start-up with a threshold already parsed; shared by both start-up variants. */
  function InitWithThreshold(threshold: int, path: string, fileOpens: bool): LogState {
    LogState(
      queue := [],
      register := map[],
      serverLogLevel := threshold,
      terminateThreads := false,
      logFilePath := path + LOG_FILE_SUFFIX,
      fileOpen := fileOpens,
      fileLines := [],
      consoleLines := if fileOpens then [] else [MSG_OPEN_FAILED])
  }

  /**
   Corrected start-up (threshold from `ParseLevel`): open `path + "/log.txt"`
   for appending, empty queue and register, threshold parsed from the level
   name. An unknown name gives threshold -1. It differs from the start-up as
   written only on "CRITICAL" and "CRTITICAL" (see `InitAsWritten`).
   */
  function Init(levelArg: string, path: string, fileOpens: bool): (s: LogState)
    ensures s.queue == [] && s.register == map[] && !s.terminateThreads
    ensures s.logFilePath == path + "/log.txt"
    ensures s.fileOpen == fileOpens && s.fileLines == []
    ensures s.consoleLines == if fileOpens then [] else [MSG_OPEN_FAILED]
    ensures levelArg in LevelNames ==> LevelName(s.serverLogLevel) == Some(levelArg)
    ensures levelArg !in LevelNames ==> s.serverLogLevel == UNKNOWN_LEVEL
  {
    InitWithThreshold(ParseLevel(levelArg), path, fileOpens)
  }

  /** Start-up as written: the threshold comes from the misspelt parser. */
  function InitAsWritten(levelArg: string, path: string, fileOpens: bool): (s: LogState)
    ensures s.queue == [] && s.register == map[] && !s.terminateThreads
    ensures s.logFilePath == path + "/log.txt"
    ensures s.serverLogLevel == ParseLevelAsWritten(levelArg)
    ensures levelArg == "CRITICAL" ==> s.serverLogLevel == UNKNOWN_LEVEL
    ensures levelArg == "CRTITICAL" ==> s.serverLogLevel == LOG_CRITICAL
    ensures s.(serverLogLevel := ParseLevel(levelArg)) == Init(levelArg, path, fileOpens)
    ensures levelArg != "CRITICAL" && levelArg != "CRTITICAL" ==> s == Init(levelArg, path, fileOpens)
  {
    InitWithThreshold(ParseLevelAsWritten(levelArg), path, fileOpens)
  }

  /**
   Append one record at the tail of the queue. When the node cannot be
   allocated the queue is unchanged and a diagnostic is printed instead.
   */
  function Enqueue(s: LogState, r: Record, allocOk: bool): (s': LogState)
    ensures allocOk ==> s' == s.(queue := s.queue + [r])
    ensures !allocOk ==> s' == s.(consoleLines := s.consoleLines + [MSG_NODE_ALLOC_FAILED])
    ensures |s'.queue| == |s.queue| + (if allocOk then 1 else 0)
  {
    if !allocOk then s.(consoleLines := s.consoleLines + [MSG_NODE_ALLOC_FAILED])
    else s.(queue := s.queue + [r])
  }

  /** The result of taking the head of the queue. */
  datatype Taken = Taken(record: Record, state: LogState)

  /**
   Pop the head of the queue. The source blocks while the queue is empty;
   here a non-empty queue is the precondition of the step.
   */
  function Dequeue(s: LogState): (t: Taken)
    requires |s.queue| > 0
    ensures t.record == s.queue[0]
    ensures t.state == s.(queue := s.queue[1..])
    ensures [t.record] + t.state.queue == s.queue
  {
    Taken(s.queue[0], s.(queue := s.queue[1..]))
  }

  /**
   The producer path: the caller-side threshold check, then (on a spawned
   writer) tag resolution through the register and enqueueing of the record.
   */
  function Emit(s: LogState, level: int, message: string, threadId: string, timestamp: string,
                spawnOk: bool, allocOk: bool): (s': LogState)
    ensures level < s.serverLogLevel ==> s' == s
    ensures level >= s.serverLogLevel && !spawnOk ==>
              s' == s.(consoleLines := s.consoleLines + [MSG_SPAWN_FAILED])
    ensures level >= s.serverLogLevel && spawnOk && !allocOk ==>
              s' == s.(consoleLines := s.consoleLines + [MSG_NODE_ALLOC_FAILED])
    ensures level >= s.serverLogLevel && spawnOk && allocOk ==>
              && s'.(queue := s.queue) == s
              && |s'.queue| == |s.queue| + 1
              && s'.queue[..|s.queue|] == s.queue
              && s'.queue[|s.queue|].level == level
              && s'.queue[|s.queue|].message == message
              && s'.queue[|s.queue|].timestamp == timestamp
              && (threadId in s.register ==> s'.queue[|s.queue|].tag == s.register[threadId])
              && (threadId !in s.register ==> s'.queue[|s.queue|].tag == threadId)
  {
    if level < s.serverLogLevel then s
    else if !spawnOk then s.(consoleLines := s.consoleLines + [MSG_SPAWN_FAILED])
    else Enqueue(s, Record(level, Tag(s.register, threadId), message, timestamp), allocOk)
  }

  /**
   Write one line: to the log file when it is open and the write succeeds,
   otherwise the same text to the console.
   */
  function WriteLine(s: LogState, line: string, writeOk: bool): (s': LogState)
    ensures s'.(fileLines := s.fileLines, consoleLines := s.consoleLines) == s
    ensures (s.fileOpen && writeOk) ==>
              s'.fileLines == s.fileLines + [line] && s'.consoleLines == s.consoleLines
    ensures !(s.fileOpen && writeOk) ==>
              s'.consoleLines == s.consoleLines + [line] && s'.fileLines == s.fileLines
  {
    if s.fileOpen && writeOk then s.(fileLines := s.fileLines + [line])
    else s.(consoleLines := s.consoleLines + [line])
  }

  /** The state after one consumer iteration, and whether the consumer exits. */
  datatype StepOutcome = StepOutcome(state: LogState, stop: bool)

  /**
   One iteration of the consumer loop: take the head record; if its level has
   a name and is not below the threshold, write its line; then exit when
   termination is requested and the queue is empty.
   */
  function ConsumerStep(s: LogState, writeOk: bool): (o: StepOutcome)
    requires |s.queue| > 0
    ensures o.state.queue == s.queue[1..]
    ensures o.state.(queue := s.queue, fileLines := s.fileLines, consoleLines := s.consoleLines) == s
    ensures Admitted(s.queue[0].level, s.serverLogLevel) ==>
              o.state == WriteLine(s.(queue := s.queue[1..]), RecordLine(s.queue[0]), writeOk)
    ensures !Admitted(s.queue[0].level, s.serverLogLevel) ==>
              o.state.fileLines == s.fileLines && o.state.consoleLines == s.consoleLines
    ensures o.stop <==> s.terminateThreads && |s.queue| == 1
  {
    var t := Dequeue(s);
    var r := t.record;
    var name := LevelName(r.level);
    var s1 :=
      if name.Some? && r.level >= t.state.serverLogLevel then
        WriteLine(t.state, FormatLine(r.timestamp, name.value, r.tag, r.message), writeOk)
      else t.state;
    StepOutcome(s1, s1.terminateThreads && s1.queue == [])
  }

  /** Bind a UUID to a thread id; later records from that thread carry the UUID. */
  function SetThreadUUID(s: LogState, threadId: string, uuid: string): (s': LogState)
    ensures threadId in s'.register && s'.register[threadId] == uuid
    ensures forall k :: k != threadId ==> (k in s'.register <==> k in s.register)
    ensures forall k :: k != threadId && k in s.register ==> s'.register[k] == s.register[k]
    ensures s'.(register := s.register) == s
  {
    s.(register := s.register[threadId := uuid])
  }

  /** Unbind a thread id; later records from that thread carry the raw id. */
  function RemoveThreadUUID(s: LogState, threadId: string): (s': LogState)
    ensures threadId !in s'.register
    ensures forall k :: k != threadId ==> (k in s'.register <==> k in s.register)
    ensures forall k :: k != threadId && k in s.register ==> s'.register[k] == s.register[k]
    ensures s'.(register := s.register) == s
  {
    s.(register := s.register - {threadId})
  }

  /**
   Teardown: request termination, empty the register, discard the pending
   records without writing them, and close the log file.
   */
  function Free(s: LogState, closeOk: bool): (s': LogState)
    ensures s'.terminateThreads && s'.register == map[] && s'.queue == [] && !s'.fileOpen
    ensures s'.fileLines == s.fileLines
    ensures s'.consoleLines ==
              s.consoleLines + [MSG_CLEANUP_DONE] + (if closeOk then [] else [MSG_CLOSE_FAILED])
    ensures s'.serverLogLevel == s.serverLogLevel && s'.logFilePath == s.logFilePath
  {
    var cleaned := s.(terminateThreads := true, register := map[], queue := [],
                      consoleLines := s.consoleLines + [MSG_CLEANUP_DONE]);
    if closeOk then cleaned.(fileOpen := false)
    else cleaned.(fileOpen := false, consoleLines := cleaned.consoleLines + [MSG_CLOSE_FAILED])
  }
}
