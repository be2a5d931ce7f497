/**
 Properties of the logging utility that relate several steps: FIFO order of
 the queue, draining by the consumer, tag resolution through the register,
 and the start-up threshold.
 */
module LogProperties {
  import opened Optional
  import opened LogLevels
  import opened LogUtil

  /** Records taken by a run of dequeues, and the state after the run. */
  datatype Drained = Drained(records: seq<Record>, state: LogState)

  /** Enqueue every record of `rs` in order, each allocation succeeding. */
  function EnqueueAll(s: LogState, rs: seq<Record>): (s': LogState)
    ensures s' == s.(queue := s.queue + rs)
    decreases |rs|
  {
    if rs == [] then s
    else
      var s' := EnqueueAll(Enqueue(s, rs[0], true), rs[1..]);
      assert s.queue + [rs[0]] + rs[1..] == s.queue + rs;
      s'
  }

  /** Dequeue `n` records one after the other. */
  function DequeueN(s: LogState, n: nat): (d: Drained)
    requires n <= |s.queue|
    ensures d.records == s.queue[..n]
    ensures d.state == s.(queue := s.queue[n..])
    decreases n
  {
    if n == 0 then Drained([], s)
    else
      var t := Dequeue(s);
      var rest := DequeueN(t.state, n - 1);
      assert s.queue[1..][n - 1..] == s.queue[n..];
      Drained([t.record] + rest.records, rest.state)
  }

  /** A run of dequeues returns the records in the order they were enqueued. */
  lemma FifoOrder(s: LogState, rs: seq<Record>)
    requires s.queue == []
    ensures DequeueN(EnqueueAll(s, rs), |rs|).records == rs
    ensures DequeueN(EnqueueAll(s, rs), |rs|).state.queue == []
  {
  }

  /** The lines the consumer writes for a queue, in queue order. */
  function AdmittedLines(q: seq<Record>, threshold: int): seq<string> {
    if q == [] then []
    else (if Admitted(q[0].level, threshold) then [RecordLine(q[0])] else [])
         + AdmittedLines(q[1..], threshold)
  }

  /**
   Run the consumer over the whole queue, `writeOks[i]` saying whether the
   i-th write to the file succeeds. It ends early only if an iteration
   exits; the contract shows that no iteration before the last one does.
   */
  function Consume(s: LogState, writeOks: seq<bool>): (o: StepOutcome)
    requires 0 < |writeOks| == |s.queue|
    ensures o.state.queue == []
    ensures o.stop <==> s.terminateThreads
    ensures o.state.(fileLines := s.fileLines, consoleLines := s.consoleLines, queue := s.queue) == s
    ensures s.fileOpen && (forall i :: 0 <= i < |writeOks| ==> writeOks[i]) ==>
              o.state.fileLines == s.fileLines + AdmittedLines(s.queue, s.serverLogLevel)
              && o.state.consoleLines == s.consoleLines
    ensures !s.fileOpen ==>
              o.state.consoleLines == s.consoleLines + AdmittedLines(s.queue, s.serverLogLevel)
              && o.state.fileLines == s.fileLines
    decreases |writeOks|
  {
    var step := ConsumerStep(s, writeOks[0]);
    if step.stop || |writeOks| == 1 then step
    else
      var o := Consume(step.state, writeOks[1..]);
      assert s.fileLines + AdmittedLines(s.queue, s.serverLogLevel)
          == step.state.fileLines + AdmittedLines(s.queue[1..], s.serverLogLevel)
          || !(s.fileOpen && writeOks[0]);
      assert s.consoleLines + AdmittedLines(s.queue, s.serverLogLevel)
          == step.state.consoleLines + AdmittedLines(s.queue[1..], s.serverLogLevel)
          || s.fileOpen;
      o
  }

  /**
   End to end: with an empty queue, an emitted record that passes both
   filters yields exactly its formatted line on the next consumer iteration,
   in the file or, failing that, on the console.
   */
  lemma EmitThenConsume(s: LogState, level: int, message: string, threadId: string,
                        timestamp: string, writeOk: bool)
    requires s.queue == [] && IsLevel(level) && level >= s.serverLogLevel
    ensures var o := ConsumerStep(Emit(s, level, message, threadId, timestamp, true, true), writeOk);
            var line := FormatLine(timestamp, LevelNames[level], Tag(s.register, threadId), message);
            && o.state.queue == []
            && (s.fileOpen && writeOk ==>
                  o.state.fileLines == s.fileLines + [line] && o.state.consoleLines == s.consoleLines)
            && (!(s.fileOpen && writeOk) ==>
                  o.state.consoleLines == s.consoleLines + [line] && o.state.fileLines == s.fileLines)
            && (o.stop <==> s.terminateThreads)
  {
  }

  /**
   The two filters are independent: a record whose level passes the
   producer's threshold check but has no name (a code outside 0 .. 4) is
   queued, and the consumer then drops it without writing a line.
   */
  lemma UnnamedLevelQueuedButNotWritten(s: LogState, level: int, message: string, threadId: string,
                                        timestamp: string, writeOk: bool)
    requires s.queue == [] && level >= s.serverLogLevel && !IsLevel(level)
    ensures |Emit(s, level, message, threadId, timestamp, true, true).queue| == 1
    ensures var o := ConsumerStep(Emit(s, level, message, threadId, timestamp, true, true), writeOk);
            o.state.fileLines == s.fileLines && o.state.consoleLines == s.consoleLines
            && o.state.queue == []
  {
  }

  /** After binding a UUID to a thread, that thread's records carry the UUID. */
  lemma SetThenEmitUsesUuid(s: LogState, threadId: string, uuid: string, level: int,
                            message: string, timestamp: string)
    requires level >= s.serverLogLevel
    ensures var e := Emit(SetThreadUUID(s, threadId, uuid), level, message, threadId, timestamp, true, true);
            e.queue == s.queue + [Record(level, uuid, message, timestamp)]
  {
  }

  /** After unbinding a thread, its records fall back to the raw thread id. */
  lemma RemoveThenEmitUsesRawId(s: LogState, threadId: string, level: int,
                                message: string, timestamp: string)
    requires level >= s.serverLogLevel
    ensures var e := Emit(RemoveThreadUUID(s, threadId), level, message, threadId, timestamp, true, true);
            e.queue == s.queue + [Record(level, threadId, message, timestamp)]
  {
  }

  /** Unbinding twice is unbinding once; unbinding an absent id does nothing. */
  lemma RemoveIdempotent(s: LogState, threadId: string)
    ensures RemoveThreadUUID(RemoveThreadUUID(s, threadId), threadId) == RemoveThreadUUID(s, threadId)
    ensures threadId !in s.register ==> RemoveThreadUUID(s, threadId) == s
  {
  }

  /** Binding or unbinding one thread leaves the tags of other threads alone. */
  lemma RegisterOpsIsolateThreads(s: LogState, threadId: string, uuid: string, other: string)
    requires other != threadId
    ensures Tag(SetThreadUUID(s, threadId, uuid).register, other) == Tag(s.register, other)
    ensures Tag(RemoveThreadUUID(s, threadId).register, other) == Tag(s.register, other)
  {
  }

  /** Under the corrected start-up, an unknown level name lets every named level through both filters. */
  lemma UnknownLevelAdmitsAll(levelArg: string, path: string, fileOpens: bool, level: int)
    requires levelArg !in LevelNames && IsLevel(level)
    ensures level >= Init(levelArg, path, fileOpens).serverLogLevel
    ensures Admitted(level, Init(levelArg, path, fileOpens).serverLogLevel)
  {
  }

  /**
   The same for the start-up as written, where the unknown names are those
   the misspelt parser rejects: this includes "CRITICAL" and excludes
   "CRTITICAL".
   */
  lemma UnknownLevelAdmitsAllAsWritten(levelArg: string, path: string, fileOpens: bool, level: int)
    requires ParseLevelAsWritten(levelArg) == UNKNOWN_LEVEL && IsLevel(level)
    ensures Admitted(level, InitAsWritten(levelArg, path, fileOpens).serverLogLevel)
  {
  }

  /**
   The consequence of the misspelt parser: started with "CRITICAL", the
   source admits DEBUG records, where the intended start-up admits only
   CRITICAL ones.
   */
  lemma CriticalStartupAsWritten(path: string, fileOpens: bool)
    ensures Admitted(LOG_DEBUG, InitAsWritten("CRITICAL", path, fileOpens).serverLogLevel)
    ensures forall level ::
              Admitted(level, Init("CRITICAL", path, fileOpens).serverLogLevel) <==> level == LOG_CRITICAL
  {
  }

  /**
   Teardown does not drain: the lines of the records still pending are
   exactly what the file misses compared with letting the consumer run over
   the queue before teardown.
   */
  lemma FreeLosesPendingLines(s: LogState, writeOks: seq<bool>, closeOk: bool)
    requires 0 < |writeOks| == |s.queue| && s.fileOpen
    requires forall i :: 0 <= i < |writeOks| ==> writeOks[i]
    ensures Free(Consume(s, writeOks).state, closeOk).fileLines
            == Free(s, closeOk).fileLines + AdmittedLines(s.queue, s.serverLogLevel)
  {
  }
}
