/**
 * MigrationLogger: the session's log files and what is written to them.
 *
 * The file system is a map from path to content. Clocks are inputs: the
 * session id, the `HH:mm:ss` stamp of a logged line and the header's
 * timestamp are passed in as text. An I/O failure is an input flag.
 */
module MigrationLogger {
  import opened Text

  // ---------------------------------------------------------------------
  // File names
  // ---------------------------------------------------------------------

  /** The characters sanitizeFileName keeps: [a-zA-Z0-9._-]. */
  predicate IsSafe(c: char) {
    ('a' <= c <= 'z') || ('A' <= c <= 'Z') || ('0' <= c <= '9') || c == '.' || c == '_' || c == '-'
  }

  /** sanitizeFileName: every character outside the safe set becomes `_`. */
  function Sanitize(name: string): (r: string)
    ensures |r| == |name|
    ensures forall k :: 0 <= k < |name| ==> r[k] == (if IsSafe(name[k]) then name[k] else '_')
  {
    seq(|name|, k requires 0 <= k < |name| => if IsSafe(name[k]) then name[k] else '_')
  }

  /**
   * A sanitized name holds only safe characters, so no path separator, and
   * sanitizing it again changes nothing.
   */
  lemma SanitizeIsSafe(name: string)
    ensures forall k :: 0 <= k < |Sanitize(name)| ==> IsSafe(Sanitize(name)[k])
    ensures '/' !in Sanitize(name) && '\\' !in Sanitize(name)
    ensures Sanitize(Sanitize(name)) == Sanitize(name)
  {
    var r := Sanitize(name);
    assert forall k :: 0 <= k < |r| ==> IsSafe(r[k]);
    assert Sanitize(r) == r;
  }

  /** Path.resolve of a plain file name. */
  function Resolve(dir: string, fileName: string): string {
    dir + "/" + fileName
  }

  /** The session directory `logs/session_<id>`. */
  function SessionLogDir(sessionId: string): string {
    "logs/session_" + sessionId
  }

  /** The name of the log of one phase of one cartridge. */
  function PhaseLogName(cartridgeName: string, order: int, phaseId: string): (r: string)
    ensures Sanitize(cartridgeName) + "_phase_" <= r && EndsWith(r, ".log")
  {
    Sanitize(cartridgeName) + "_phase_" + PhaseTail(order, phaseId)
  }

  /** The part of a phase log's name after `_phase_`: `<order>_<id>.log`. */
  function PhaseTail(order: int, phaseId: string): string {
    IntToString(order) + "_" + (phaseId + ".log")
  }

  function SummaryLogName(cartridgeName: string): (r: string)
    ensures Sanitize(cartridgeName) <= r && EndsWith(r, "_summary.log")
  {
    Sanitize(cartridgeName) + "_summary.log"
  }

  const MasterLogName := "migration_master.log"

  /** Two files of one directory are the same file only when their names are equal. */
  lemma ResolveInjective(dir: string, name1: string, name2: string)
    requires Resolve(dir, name1) == Resolve(dir, name2)
    ensures name1 == name2
  {
    var n := |dir| + 1;
    assert name1 == Resolve(dir, name1)[n..] && name2 == Resolve(dir, name2)[n..];
  }

  /** In `a + "_" + r` with no `_` in `a`, the first `_` is the one after `a`. */
  lemma FirstUnderscore(a: string, r: string)
    requires '_' !in a
    ensures forall k :: 0 <= k < |a| ==> (a + "_" + r)[k] != '_'
    ensures (a + "_" + r)[|a|] == '_'
  {
  }

  /** Two texts without `_` before the first `_` split the same way. */
  lemma SplitAtUnderscore(a1: string, r1: string, a2: string, r2: string)
    requires '_' !in a1 && '_' !in a2
    requires a1 + "_" + r1 == a2 + "_" + r2
    ensures a1 == a2 && r1 == r2
  {
    var s1, s2 := a1 + "_" + r1, a2 + "_" + r2;
    FirstUnderscore(a1, r1);
    FirstUnderscore(a2, r2);
    if |a1| < |a2| {
      assert false;
    } else if |a2| < |a1| {
      assert false;
    }
    assert a1 == s1[..|a1|] && a2 == s2[..|a2|];
    assert r1 == s1[|a1| + 1..] && r2 == s2[|a2| + 1..];
  }

  lemma NoUnderscoreInInt(i: int)
    ensures '_' !in IntToString(i)
  {
    IntToStringChars(i);
  }

  /**
   * Within a cartridge, phases with different order or id get different log
   * files: the rendered order holds no `_`, so the name splits back into
   * order and id.
   */
  lemma PhaseLogNamesDistinct(cartridgeName: string, order1: int, id1: string, order2: int, id2: string)
    requires PhaseLogName(cartridgeName, order1, id1) == PhaseLogName(cartridgeName, order2, id2)
    ensures order1 == order2 && id1 == id2
  {
    CancelPrefix(Sanitize(cartridgeName) + "_phase_", PhaseTail(order1, id1), PhaseTail(order2, id2));
    PhaseTailInjective(order1, id1, order2, id2);
  }

  lemma CancelPrefix(head: string, t1: string, t2: string)
    requires head + t1 == head + t2
    ensures t1 == t2
  {
    assert t1 == (head + t1)[|head|..] && t2 == (head + t2)[|head|..];
  }

  lemma PhaseTailInjective(order1: int, id1: string, order2: int, id2: string)
    requires PhaseTail(order1, id1) == PhaseTail(order2, id2)
    ensures order1 == order2 && id1 == id2
  {
    NoUnderscoreInInt(order1);
    NoUnderscoreInInt(order2);
    SplitAtUnderscore(IntToString(order1), id1 + ".log", IntToString(order2), id2 + ".log");
    IntToStringInjective(order1, order2);
    assert id1 == (id1 + ".log")[..|id1|] && id2 == (id2 + ".log")[..|id2|];
  }

  /** A phase log is neither the cartridge's summary log nor the master log, and no summary log is the master log. */
  lemma LogKindsDistinct(cartridgeName: string, order: int, phaseId: string, otherName: string)
    ensures PhaseLogName(cartridgeName, order, phaseId) != SummaryLogName(cartridgeName)
    ensures SummaryLogName(otherName) != MasterLogName
    ensures PhaseLogName(cartridgeName, order, phaseId) != MasterLogName
  {
    var n := |Sanitize(cartridgeName)|;
    assert PhaseLogName(cartridgeName, order, phaseId)[n + 1] == 'p';
    assert 'p' !in MasterLogName;
    assert SummaryLogName(cartridgeName)[n + 1] == 's';
  }

  // ---------------------------------------------------------------------
  // formatDuration
  // ---------------------------------------------------------------------

  /** Java's `/` on long: the quotient truncated toward zero. */
  function JavaDiv(a: int, b: int): (q: int)
    requires b > 0
    ensures a >= 0 ==> q == a / b
  {
    if a >= 0 then a / b else -((-a) / b)
  }

  /** Java's `%` on long: the remainder takes the sign of the dividend. */
  function JavaRem(a: int, b: int): (r: int)
    requires b > 0
    ensures a == JavaDiv(a, b) * b + r
    ensures -b < r < b && (a >= 0 ==> 0 <= r) && (a <= 0 ==> r <= 0)
  {
    a - JavaDiv(a, b) * b
  }

  /** The whole minutes and leftover seconds of a duration in milliseconds. */
  function DurationParts(millis: int): (parts: (int, int))
    ensures parts.0 * 60 + parts.1 == JavaDiv(millis, 1000)
    ensures millis >= 0 ==> parts.0 == millis / 60000 && 0 <= parts.1 < 60
  {
    var seconds := JavaDiv(millis, 1000);
    (JavaDiv(seconds, 60), JavaRem(seconds, 60))
  }

  /** formatDuration: "M min S sec" with at least one whole minute, "S sec" otherwise. */
  function FormatDuration(millis: int): (r: string)
    ensures DurationParts(millis).0 > 0 ==>
      r == IntToString(DurationParts(millis).0) + " min " + IntToString(DurationParts(millis).1) + " sec"
    ensures DurationParts(millis).0 <= 0 ==> r == IntToString(DurationParts(millis).1) + " sec"
  {
    var (minutes, seconds) := DurationParts(millis);
    if minutes > 0 then IntToString(minutes) + " min " + IntToString(seconds) + " sec"
    else IntToString(seconds) + " sec"
  }

  /** Under a minute only the whole seconds are shown; milliseconds are dropped. */
  lemma ShortDuration(millis: int)
    requires 0 <= millis < 60000
    ensures FormatDuration(millis) == NatToString(millis / 1000) + " sec"
  {
  }

  /** From a minute on, minutes and the seconds left over are shown. */
  lemma LongDuration(millis: int)
    requires millis >= 60000
    ensures FormatDuration(millis) == NatToString(millis / 60000) + " min " + NatToString(millis / 1000 % 60) + " sec"
  {
    var seconds := millis / 1000;
    assert millis / 60000 == seconds / 60;
  }

  /** A negative duration never shows minutes, and its seconds carry the sign. */
  lemma NegativeDuration(millis: int)
    requires millis < 0
    ensures FormatDuration(millis) == IntToString(JavaRem(JavaDiv(millis, 1000), 60)) + " sec"
  {
  }

  // ---------------------------------------------------------------------
  // What is written
  // ---------------------------------------------------------------------

  /** `"=".repeat(80)` */
  function Rule(): (r: string)
    ensures |r| == 80 && forall k :: 0 <= k < 80 ==> r[k] == '='
  {
    seq(80, _ => '=')
  }

  /** A title between two rules, each on its own line. */
  function Banner(title: string): string {
    Rule() + "\n" + title + "\n" + Rule() + "\n"
  }

  /** The header writeLogHeader puts at the start of a phase log: it opens with the "Migration Log" banner. */
  function Header(cartridgeName: string, cartridgePath: string, order: int, phaseName: string, phaseId: string, timestamp: string): (r: string)
    ensures Banner("Migration Log") <= r
  {
    var fields :=
      "Cartridge: " + cartridgeName + "\n" +
    "Path: " + cartridgePath + "\n" +
    "Phase: " + IntToString(order) + " - " + phaseName + "\n" +
    "Phase ID: " + phaseId + "\n" +
      "Timestamp: " + timestamp + "\n";
    Banner("Migration Log") + (fields + Rule() + "\n\n")
  }

  /** A line of the master or summary log: `[HH:mm:ss] message`. */
  function StampedLine(time: string, message: string): string {
    "[" + time + "] " + message + "\n"
  }

  /** The session summary createSummaryReport writes to SUMMARY.txt. */
  function SummaryReport(sessionId: string, totalCartridges: int, totalPhases: int, durationMillis: int, completed: string, logDir: string): string {
    Banner("MIGRATION SESSION SUMMARY") +
    "Session ID: " + sessionId + "\n" +
    "Total Cartridges: " + IntToString(totalCartridges) + "\n" +
    "Total Phases: " + IntToString(totalPhases) + "\n" +
    "Duration: " + FormatDuration(durationMillis) + "\n" +
    "Completed: " + completed + "\n" +
    Rule() + "\n" +
    "\nDetailed logs available in: " + logDir + "\n"
  }

  // ---------------------------------------------------------------------
  // The file system
  // ---------------------------------------------------------------------

  /** What reading a file gives; a missing file reads as empty. */
  function Content(files: map<string, string>, path: string): string {
    if path in files then files[path] else ""
  }

  /** Opening for append (CREATE, APPEND) and writing `text`. */
  function Appended(files: map<string, string>, path: string, text: string): (r: map<string, string>)
    ensures Content(r, path) == Content(files, path) + text
    ensures forall p :: p != path ==> Content(r, p) == Content(files, p)
  {
    files[path := Content(files, path) + text]
  }

  /** Opening with truncation (a new writer or a FileOutputStream without append) and writing `text`. */
  function Overwritten(files: map<string, string>, path: string, text: string): (r: map<string, string>)
    ensures Content(r, path) == text
    ensures forall p :: p != path ==> Content(r, p) == Content(files, p)
  {
    files[path := text]
  }

  /** A write on a log file: text appended, or the whole content replaced. */
  datatype FileOp = AppendOp(path: string, text: string) | OverwriteOp(path: string, text: string)

  function Do(files: map<string, string>, op: FileOp): map<string, string> {
    match op
    case AppendOp(p, t) => Appended(files, p, t)
    case OverwriteOp(p, t) => Overwritten(files, p, t)
  }

  /** The files after a sequence of writes, in order. */
  function Perform(files: map<string, string>, ops: seq<FileOp>): map<string, string>
    decreases |ops|
  {
    if ops == [] then files else Do(Perform(files, ops[..|ops| - 1]), ops[|ops| - 1])
  }

  lemma PerformSnoc(files: map<string, string>, ops: seq<FileOp>, op: FileOp)
    ensures Perform(files, ops + [op]) == Do(Perform(files, ops), op)
  {
    assert (ops + [op])[..|ops|] == ops;
  }

  /** Writes done in two stretches are the writes done in one. */
  lemma {:induction false} PerformConcat(files: map<string, string>, a: seq<FileOp>, b: seq<FileOp>)
    ensures Perform(files, a + b) == Perform(Perform(files, a), b)
    decreases |b|
  {
    if b == [] {
      assert a + b == a;
    } else {
      var n := |b| - 1;
      var init := b[..n];
      assert b == init + [b[n]];
      assert a + b == (a + init) + [b[n]];
      PerformConcat(files, a, init);
      PerformSnoc(files, a + init, b[n]);
      PerformSnoc(Perform(files, a), init, b[n]);
    }
  }

  /** Writes on other files leave a file as it was. */
  lemma {:induction false} PerformElsewhere(files: map<string, string>, ops: seq<FileOp>, path: string)
    requires forall k :: 0 <= k < |ops| ==> ops[k].path != path
    ensures Content(Perform(files, ops), path) == Content(files, path)
    decreases |ops|
  {
    if ops != [] {
      PerformElsewhere(files, ops[..|ops| - 1], path);
    }
  }

  /**
   * The header of a phase log followed by the process's output, as written:
   * executeWithLogging opens a non-appending FileOutputStream on the log
   * right after writeLogHeader, which empties the file before the process
   * appends its output.
   */
  function PhaseLogAsWritten(files: map<string, string>, path: string, header: string, output: string): map<string, string> {
    Appended(Overwritten(Overwritten(files, path, header), path, ""), path, output)
  }

  /** The same with the log opened for appending, as the redirection intends. */
  function PhaseLog(files: map<string, string>, path: string, header: string, output: string): map<string, string> {
    Appended(Overwritten(files, path, header), path, output)
  }

  /** As written, the header is lost: the log holds only the process output. */
  lemma HeaderLost(files: map<string, string>, path: string, header: string, output: string)
    ensures Content(PhaseLogAsWritten(files, path, header, output), path) == output
    ensures header != [] ==> Content(PhaseLogAsWritten(files, path, header, output), path) != header + output
  {
  }

  /** Opened for appending, the log is the header followed by the output. */
  lemma HeaderKept(files: map<string, string>, path: string, header: string, output: string)
    ensures Content(PhaseLog(files, path, header, output), path) == header + output
  {
  }

  /**
   * The logger of one session. `files` is the file system as far as the
   * session's logs go.
   */
  class Logger {
    const sessionId: string
    const sessionLogDir: string
    var files: map<string, string>
    /** The files when the session started. */
    ghost const origin: map<string, string>
    /** Every write on the files since the session started, in order. */
    ghost var writes: seq<FileOp>

    ghost predicate Valid()
      reads this
    {
      files == Perform(origin, writes)
    }

    /** The directory creation's failure is only reported, so it is not modelled. */
    constructor (sessionId: string, files: map<string, string>)
      ensures this.sessionId == sessionId && sessionLogDir == SessionLogDir(sessionId)
      ensures this.files == files && origin == files && writes == [] && Valid()
    {
      this.sessionId := sessionId;
      sessionLogDir := SessionLogDir(sessionId);
      this.files := files;
      origin := files;
      writes := [];
    }

    /** getLogFile */
    function LogFile(cartridgeName: string, order: int, phaseId: string): string {
      Resolve(sessionLogDir, PhaseLogName(cartridgeName, order, phaseId))
    }

    /** getCartridgeSummaryLog */
    function CartridgeSummaryLog(cartridgeName: string): string {
      Resolve(sessionLogDir, SummaryLogName(cartridgeName))
    }

    /** getMasterLogFile */
    function MasterLogFile(): string {
      Resolve(sessionLogDir, MasterLogName)
    }

    /** One more write on the files. */
    method Write(op: FileOp)
      requires Valid()
      modifies this
      ensures Valid() && writes == old(writes) + [op] && files == Do(old(files), op)
    {
      PerformSnoc(origin, writes, op);
      files := Do(files, op);
      writes := writes + [op];
    }

    /**
     * logToMaster: one stamped line at the end of the master log; when the
     * write fails nothing changes and the error is swallowed. Every log only
     * grows.
     */
    method LogToMaster(message: string, time: string, ioError: bool)
      requires Valid()
      modifies this
      ensures Valid()
      ensures writes == old(writes) + if ioError then [] else [AppendOp(MasterLogFile(), StampedLine(time, message))]
      ensures files == if ioError then old(files) else Appended(old(files), MasterLogFile(), StampedLine(time, message))
      ensures forall p :: Content(old(files), p) <= Content(files, p)
    {
      if !ioError {
        Write(AppendOp(Resolve(sessionLogDir, MasterLogName), StampedLine(time, message)));
      } else {
        assert writes == old(writes) + [];
      }
    }

    /** logToCartridgeSummary: the same for the cartridge's summary log. */
    method LogToCartridgeSummary(cartridgeName: string, message: string, time: string, ioError: bool)
      requires Valid()
      modifies this
      ensures Valid()
      ensures writes == old(writes) + if ioError then [] else [AppendOp(CartridgeSummaryLog(cartridgeName), StampedLine(time, message))]
      ensures files == if ioError then old(files) else Appended(old(files), CartridgeSummaryLog(cartridgeName), StampedLine(time, message))
      ensures forall p :: Content(old(files), p) <= Content(files, p)
    {
      if !ioError {
        var summaryLog := Resolve(sessionLogDir, SummaryLogName(cartridgeName));
        Write(AppendOp(summaryLog, StampedLine(time, message)));
      } else {
        assert writes == old(writes) + [];
      }
    }

    /** writeLogHeader: replaces the log with the header; a failure is thrown to the caller. */
    method WriteLogHeader(logFile: string, cartridgeName: string, cartridgePath: string, order: int, phaseName: string, phaseId: string,
                          timestamp: string, ioError: bool) returns (ok: bool)
      requires Valid()
      modifies this
      ensures Valid() && ok == !ioError
      ensures writes == old(writes) + if ioError then [] else [OverwriteOp(logFile, Header(cartridgeName, cartridgePath, order, phaseName, phaseId, timestamp))]
      ensures files == if ioError then old(files) else Overwritten(old(files), logFile, Header(cartridgeName, cartridgePath, order, phaseName, phaseId, timestamp))
    {
      if ioError {
        assert writes == old(writes) + [];
        return false;
      }
      Write(OverwriteOp(logFile, Header(cartridgeName, cartridgePath, order, phaseName, phaseId, timestamp)));
      return true;
    }

    /**
     * executeWithLogging: the log's directory is created and a non-appending
     * FileOutputStream is opened on the log, which empties it; then the
     * process is started with its output appended to the log. `openError`:
     * the directory or the stream could not be opened, nothing is written;
     * `startError`: the process could not be started, the log stays empty.
     */
    method ExecuteWithLogging(logFile: string, output: string, openError: bool, startError: bool) returns (ok: bool)
      requires Valid()
      modifies this
      ensures Valid() && ok == (!openError && !startError)
      ensures writes == old(writes) + if openError then [] else if startError then [OverwriteOp(logFile, "")]
        else [OverwriteOp(logFile, ""), AppendOp(logFile, output)]
      ensures !openError ==> Content(files, logFile) == if startError then "" else output
      ensures forall p :: p != logFile ==> Content(files, p) == Content(old(files), p)
    {
      if openError {
        assert writes == old(writes) + [];
        return false;
      }
      Write(OverwriteOp(logFile, ""));
      if startError {
        return false;
      }
      Write(AppendOp(logFile, output));
      return true;
    }

    /** executeWithLogging with the log opened for appending: the header stays in front of the output. */
    method ExecuteWithLoggingAppending(logFile: string, output: string, openError: bool, startError: bool) returns (ok: bool)
      requires Valid()
      modifies this
      ensures Valid() && ok == (!openError && !startError)
      ensures writes == old(writes) + if ok then [AppendOp(logFile, output)] else []
      ensures Content(files, logFile) == Content(old(files), logFile) + if ok then output else ""
      ensures forall p :: Content(old(files), p) <= Content(files, p)
    {
      if openError || startError {
        assert writes == old(writes) + [];
        return false;
      }
      Write(AppendOp(logFile, output));
      return true;
    }

    /** readLog: the content of the file, or "" when it does not exist. */
    method ReadLog(logFile: string) returns (content: string)
      ensures content == Content(files, logFile)
      ensures logFile !in files ==> content == ""
    {
      if logFile in files {
        content := files[logFile];
      } else {
        content := "";
      }
    }

    /** createSummaryReport: SUMMARY.txt is replaced by the report; a failure is only reported. */
    method CreateSummaryReport(totalCartridges: int, totalPhases: int, durationMillis: int, completed: string, logDirAbsolute: string, ioError: bool)
      requires Valid()
      modifies this
      ensures Valid()
      ensures writes == old(writes) + if ioError then [] else
        [OverwriteOp(Resolve(sessionLogDir, "SUMMARY.txt"), SummaryReport(sessionId, totalCartridges, totalPhases, durationMillis, completed, logDirAbsolute))]
      ensures files == if ioError then old(files)
        else Overwritten(old(files), Resolve(sessionLogDir, "SUMMARY.txt"),
                         SummaryReport(sessionId, totalCartridges, totalPhases, durationMillis, completed, logDirAbsolute))
    {
      if !ioError {
        var report := SummaryReport(sessionId, totalCartridges, totalPhases, durationMillis, completed, logDirAbsolute);
        Write(OverwriteOp(Resolve(sessionLogDir, "SUMMARY.txt"), report));
      } else {
        assert writes == old(writes) + [];
      }
    }
  }
}
