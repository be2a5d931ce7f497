# Logging utility and SHA-256 hex helper, modelled in Dafny

This project models two pieces of sequential logic of a small vector database server written in C.

**The logging utility** (`src/utils/logs/log.c`). It is an asynchronous logger:
- producers emit records;
- a process-wide FIFO message queue holds them;
- a single consumer thread takes records, filters them by severity, formats them and writes them to `log.txt`, or to the console when the file is unavailable;
- a thread register maps a stringified thread id to a logical UUID, which becomes the record's tag.

Here the whole process-wide state is one immutable record (`LogUtil.LogState`): queue, register, threshold (`serverLogLevel`), termination flag, log file path and open flag, and two output logs (`fileLines`, `consoleLines`). Each C entry point is a pure transition on that record. Locks and thread creation only serialise these steps, so each step is treated as atomic. Output lines are stored without their trailing newline.

**The SHA-256 helper** (`src/servers/auth/crypto.c`). It renders a 32-byte digest as 64 lowercase hex characters and a NUL. If any step fails, it returns NULL. The digest is a function-valued parameter. Only the rendering and the failure paths are modelled.

Files:
- `option.dfy`: `Optional.Option`, used for NULL.
- `levels.dfy`: `LogLevels`, the level codes and the conversions between codes and names.
- `log_util.dfy`: `LogUtil`, the state and one transition per entry point.
- `log_properties.dfy`: `LogProperties`, properties relating several steps: FIFO order, draining, tags, start-up threshold.
- `crypto.dfy`: `Crypto`, the hex encoder, its inverse and the `sha256` wrapper.

Assumption: the header that defines `LOG_DEBUG` .. `LOG_CRITICAL` is not part of this model. The codes are taken to be 0 .. 4, the values that `getLogLevelString` switches on.

Platform inputs become parameters:
- the `%p` string of `pthread_self()`;
- the output of `timestampToString`;
- whether `malloc`, `pthread_create`, `fopen`, `fprintf` and `fclose` succeed;
- the initial contents of the buffer `malloc` returns.

## Model

| member | source | states |
|---|---|---|
| LogLevels.LevelName | src/utils/logs/log.c:19-33 | codes 0..4 have the names DEBUG, INFO, WARN, ERROR, CRITICAL; every other code has none (NULL) |
| LogLevels.ParseLevel | src/utils/logs/log.c:35-49 | corrected parser: each of the five names parses to the code whose name it is; every other string parses to -1 |
| LogLevels.ParseLevelAsWritten | src/utils/logs/log.c:35-49 | parser as written: DEBUG..ERROR parse to their codes; the misspelling "CRTITICAL" parses to 4; everything else, including "CRITICAL", parses to -1 |
| LogLevels.ParseInvertsName | src/utils/logs/log.c:19-49 | for every level, parsing its name gives the level back |
| LogLevels.NameInvertsParse | src/utils/logs/log.c:19-49 | a string that parses to a level is exactly that level's name |
| LogLevels.AsWrittenInvertsNameBelowCritical | src/utils/logs/log.c:19-49 | as written, the round trip name-then-parse holds for codes 0..3 |
| LogLevels.CriticalNotParsedAsWritten | src/utils/logs/log.c:44 | as written, the name of code 4 parses to -1; the corrected parser gives 4 |
| LogLevels.AsWrittenAgreesElsewhere | src/utils/logs/log.c:35-49 | the two parsers agree on every string except "CRITICAL" and "CRTITICAL" |
| LogUtil.Init | src/utils/logs/log.c:137-153 | corrected start-up (threshold from `ParseLevel`; differs from the source only on "CRITICAL" and "CRTITICAL"): path is `path + "/log.txt"`; queue and register empty; not terminating; open failure prints a diagnostic; threshold is the code of a known name and -1 for an unknown one |
| LogUtil.InitAsWritten | src/utils/logs/log.c:137-153 | start-up as written: the threshold is the as-written parse, so "CRITICAL" gives -1 and "CRTITICAL" gives 4; in every other field it equals the corrected start-up, and for every other string it is the corrected start-up |
| LogUtil.Tag | src/utils/logs/log.c:172-175 | a record's tag is the thread's registered UUID when the thread id is bound, and the raw thread id otherwise |
| LogUtil.FormatLine | src/utils/logs/log.c:121-124 | a line is timestamp, level name, tag and message in that order, separated by single spaces, with nothing else |
| LogUtil.Enqueue | src/utils/logs/log.c:63-90 | a successful enqueue appends exactly one record at the tail and changes nothing else; an allocation failure leaves the queue unchanged and prints one diagnostic |
| LogUtil.Dequeue | src/utils/logs/log.c:92-112 | on a non-empty queue it returns the head and leaves the tail |
| LogUtil.Emit | src/utils/logs/log.c:166-204 | below the threshold nothing changes. Otherwise one record is appended with its level, message and timestamp, tagged with the thread's registered UUID or else the raw id. A failed spawn or allocation prints one diagnostic and enqueues nothing |
| LogUtil.WriteLine | src/utils/logs/log.c:121-125 | the line goes to the file when it is open and the write succeeds; otherwise the identical text goes to the console; nothing else changes |
| LogUtil.ConsumerStep | src/utils/logs/log.c:114-131 | one iteration pops the head. It writes that record's line iff the level has a name and is not below the threshold, and writes no line otherwise. The loop exits iff termination is requested and the queue is now empty |
| LogUtil.SetThreadUUID | src/utils/logs/log.c:233-236 | after set, the id maps to the UUID; every other id keeps its binding; nothing else changes |
| LogUtil.RemoveThreadUUID | src/utils/logs/log.c:238-241 | after remove, the id is unbound; every other id keeps its binding; nothing else changes |
| LogUtil.Free | src/utils/logs/log.c:207-231 | teardown requests termination, empties the register and queue, and writes no pending record to the file. It prints the cleanup message, and the close-error message on a failed close |
| LogProperties.EnqueueAll | src/utils/logs/log.c:63-90 | enqueueing a sequence of records appends exactly that sequence, in order |
| LogProperties.DequeueN | src/utils/logs/log.c:92-112 | n dequeues return the first n queued records in queue order and leave the rest |
| LogProperties.FifoOrder | src/utils/logs/log.c:63-112 | from an empty queue, dequeueing as many records as were enqueued returns them in enqueue order |
| LogProperties.Consume | src/utils/logs/log.c:114-131 | running the consumer over a queue never exits before the queue is empty. It exits at the end iff termination is requested. With all writes succeeding it appends the lines of the admitted records in queue order to the file, or to the console when the file is not open |
| LogProperties.EmitThenConsume | src/utils/logs/log.c:114-204 | an emitted record that passes both filters becomes exactly one line "timestamp LEVEL tag message" on the next consumer iteration, in the file or on the console |
| LogProperties.UnnamedLevelQueuedButNotWritten | src/utils/logs/log.c:114-204 | a record with a level code outside 0..4 that passes the producer's threshold check is queued, and the consumer then drops it without writing any line |
| LogProperties.SetThenEmitUsesUuid | src/utils/logs/log.c:172-175 | after binding a UUID to a thread, that thread's records are tagged with the UUID |
| LogProperties.RemoveThenEmitUsesRawId | src/utils/logs/log.c:172-175 | after unbinding a thread, its records are tagged with the raw thread id |
| LogProperties.RemoveIdempotent | src/utils/logs/log.c:238-241 | unbinding twice equals unbinding once; unbinding an absent id changes nothing |
| LogProperties.RegisterOpsIsolateThreads | src/utils/logs/log.c:233-241 | binding or unbinding one id does not change the tag of any other id |
| LogProperties.UnknownLevelAdmitsAll | src/utils/logs/log.c:153 | corrected start-up: when started with a string that names no level, every named level passes both filters |
| LogProperties.UnknownLevelAdmitsAllAsWritten | src/utils/logs/log.c:35-49 | start-up as written: when started with a string the misspelt parser rejects (including "CRITICAL", but not "CRTITICAL"), every named level passes both filters |
| LogProperties.CriticalStartupAsWritten | src/utils/logs/log.c:153 | started with "CRITICAL", the as-written start-up admits DEBUG records, while the corrected start-up admits only CRITICAL ones |
| LogProperties.FreeLosesPendingLines | src/utils/logs/log.c:207-221 | teardown does not drain: with the file open, the file misses exactly the admitted lines of the pending records, compared with letting the consumer run over the queue first |
| Crypto.HexDigit | src/servers/auth/crypto.c:44 | a nibble is printed as one lowercase hex digit, a decimal digit exactly for values below 10 |
| Crypto.ByteHex | src/servers/auth/crypto.c:44 | "%02x" of a byte is exactly two hex digits, high nibble first, whose values recompose the byte |
| Crypto.DigitValue | src/servers/auth/crypto.c:44 | exactly the characters 0-9 and a-f are hex digits, and each one is the rendering of its value |
| Crypto.Hex | src/servers/auth/crypto.c:43-45 | the rendering has two characters per byte, and every character is in 0-9 or a-f |
| Crypto.HexAt | src/servers/auth/crypto.c:43-45 | characters 2i and 2i+1 of the rendering are the high and low hex digits of byte i |
| Crypto.Unhex | src/servers/auth/crypto.c:43-45 | decoding pairwise: whatever it decodes renders back to the input string |
| Crypto.UnhexHex | src/servers/auth/crypto.c:43-45 | decoding a rendering recovers the bytes |
| Crypto.HexInjective | src/servers/auth/crypto.c:43-45 | distinct digests have distinct renderings |
| Crypto.FormatHex | src/servers/auth/crypto.c:35-47 | whatever the buffer held before, the result has 65 characters with a NUL at 64; characters 2i and 2i+1 are the zero-padded lowercase hex of byte i; the first 64 are the rendering of the digest |
| Crypto.Sha256 | src/servers/auth/crypto.c:4-54 | the result is NULL iff some step fails. Otherwise it is the 64-character rendering of digest(input) followed by a NUL, never a partial string, and decoding it recovers the digest |

## Left out

- Threads and locks: mutexes, condition variables and thread creation are not modelled. Each entry point is one atomic step, so the reordering allowed by the thread-per-call `logWriter` is not modelled. The blocking wait in `dequeueLogMessage` becomes the precondition that the queue is non-empty.
- File and console I/O: `fopen`, `fprintf`, `fflush`, `fclose` and `printf` become success inputs and appended lines. Lines already in `log.txt` before start-up are not modelled.
- `timestampToString` and the `%p` string of the thread id (including its truncation to 24 characters) are opaque string inputs.
- The hash map behind the register is not part of this model. It is a Dafny `map`. Inserting an id that is already bound is assumed to replace the old UUID.
- Memory ownership: `strdup` and `free` are not modelled, and neither are the leaks at src/utils/logs/log.c:52 and src/utils/logs/log.c:216-218. They do not affect output.
- `initLogUtil` itself calls `logWriter` (src/utils/logs/log.c:155-163). These calls are thread-creation reporting and are not modelled.
- `freeLogUtil` calls `fclose` even when the file never opened. That is undefined behaviour in C and is not modelled: the close outcome is an input.
- `logWriter` does not check the `malloc` of its parameter block. That failure is not modelled.
- The consumer is left blocked after teardown, waiting on a destroyed condition variable. That is not modelled, because the model has no blocking.
- `sha256` calls `logWriter` for its diagnostics (LOG_DEBUG). These calls are not modelled.
- Crypto.Sha256: the digest is a parameter. Which step fails first only chooses the diagnostic, so failures are a set of failing steps.
- Crypto.Sha256: early failures return without freeing the buffers. That is not modelled.
- LogProperties.Consume: stated only for two cases. In the first, every write succeeds with the file open. In the second, the file is closed. With mixed write failures, each line goes to file or console as `LogUtil.WriteLine` states.
- `globals.h` holds declarations only, with no logic, and is not part of this model.
- LogUtil.Init: models only the first start-up of the process. `initLogUtil` never assigns `terminateThreads`; it is false only through its static initialiser (src/utils/logs/log.c:11), and `freeLogUtil` sets it (src/utils/logs/log.c:208). A start-up after a teardown would keep the flag set, so its consumer would exit as soon as the queue drains; `Init` and `InitAsWritten` take no prior state and do not model that.
- LogUtil.Free: `freeLogUtil` discards pending records. It empties the queue at once and never waits for the consumer, so a record reaches the sink only through consumer iterations that run before teardown (`LogProperties.Consume`, `LogProperties.FreeLosesPendingLines`).
- LogUtil.Free: the model marks the file closed (`fileOpen := false`), so a consumer write after teardown goes to the console. The source calls `fclose` (src/utils/logs/log.c:228) but never resets `logfile` to NULL, so such a write would be `fprintf` on a closed stream, which is undefined behaviour in C; the model does not promise what happens to it.

## Findings

| source | as written | input that shows it | evidently intended | confidence | as-written member | corrected member |
|---|---|---|---|---|---|---|
| src/utils/logs/log.c:44 | `getLogLevelCode` compares against "CRTITICAL" | `getLogLevelCode("CRITICAL")` returns -1, so starting with level "CRITICAL" sets threshold -1 and admits every level | "CRITICAL" parses to `LOG_CRITICAL` (4), the inverse of `getLogLevelString` | high; not executed | LogLevels.CriticalNotParsedAsWritten | LogLevels.ParseInvertsName |
