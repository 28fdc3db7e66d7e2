/** logback's time-based rolling policy (TimeBasedRollingPolicy.java): the
    start-up checks that install the compression mode, the sub-policy and the
    archive remover; the rollover decision between renaming, renaming to a
    temporary file then compressing, and compressing in place; the scheduled
    clean-up; and the orderly stop.

    The file system, the compressor and the executor are not modelled: each
    rename, compression, clean-up or wait the policy asks for is appended to an
    action log, and the answers of the collaborators (does the rename succeed,
    did the sub-policy start, how did a wait end, the clock) are parameters. */
module TimeBasedRolling {
  import opened Wrappers
  import opened Status

  /** CoreConstants.UNBOUND_HISTORY: no limit on the number of archives. */
  const UNBOUND_HISTORY: int := 0
  /** CoreConstants.UNBOUNDED_TOTAL_SIZE_CAP: no limit on the archives' total size. */
  const UNBOUNDED_TOTAL_SIZE_CAP: int := 0

  datatype CompressionMode = NoCompression | Gz | Zip

  /** What the policy asks of the outside world, in the order it asks. */
  datatype Action =
    | Rename(src: string, dst: string)
    | Compress(src: string, dst: string, entry: string)
    | Clean(now: int)
    | Await(job: Action)

  /** How Future.get ended for a job the policy waits on. */
  datatype WaitOutcome = Completed | TimedOut | Failed

  /** The archive remover the sub-policy hands out, with its two limits set. */
  datatype ArchiveRemover = ArchiveRemover(maxHistory: int, totalSizeCap: int)

  /** The naming and triggering sub-policy, reduced to its trigger decision. */
  datatype NamingPolicy<-E> = NamingPolicy(isTriggeringEvent: (string, E) -> bool)

  /** What RollingPolicyBase and Compressor derive from the file-name pattern:
      the compression mode its suffix calls for, and the pattern without that
      suffix. */
  datatype PatternSupport = PatternSupport(
    compressionModeOf: string -> CompressionMode,
    withoutCompSuffix: (string, CompressionMode) -> string)

  datatype IllegalState = FileNamePatternNotSet
  /** The RolloverFailure that RenameUtil.rename throws (for a missing source or
      a failed copy); a `renameTo` that merely returns false only adds warnings
      there and is not a failure here. */
  datatype RolloverFailure = RenameFailed

  // ---------------------------------------------------------------------------
  // File names (FileFilterUtil)

  /** FileFilterUtil.slashify: every backslash becomes a slash. */
  function Slashify(s: string): (r: string)
    ensures |r| == |s| && '\\' !in r
    ensures forall i :: 0 <= i < |s| ==> r[i] == (if s[i] == '\\' then '/' else s[i])
  {
    if s == [] then []
    else [if s[0] == '\\' then '/' else s[0]] + Slashify(s[1..])
  }

  /** String.lastIndexOf: the last position of `c` in `s`, or -1. */
  function LastIndexOf(s: string, c: char): (i: int)
    ensures -1 <= i < |s|
    ensures i == -1 <==> c !in s
    ensures 0 <= i ==> s[i] == c && c !in s[i + 1..]
  {
    if s == [] then -1
    else if s[|s| - 1] == c then |s| - 1
    else
      var i := LastIndexOf(s[..|s| - 1], c);
      assert i >= 0 ==> s[i + 1..] == s[..|s| - 1][i + 1..] + [s[|s| - 1]];
      assert s == s[..|s| - 1] + [s[|s| - 1]];
      i
  }

  /** FileFilterUtil.afterLastSlash: what follows the last '/', or the whole
      name when it has none. */
  function AfterLastSlash(s: string): (r: string)
    ensures |r| <= |s| && r == s[|s| - |r|..]
    ensures '/' !in r
    ensures '/' !in s ==> r == s
    ensures '/' in s ==> |r| < |s| && s[|s| - |r| - 1] == '/'
  {
    var i := LastIndexOf(s, '/');
    if i == -1 then s else s[i + 1..]
  }

  /** What follows the last slash of a slashified name `q` of `p` is what
      follows the last separator, either one, of `p` itself. */
  lemma AfterLastSeparator(p: string, q: string, r: string)
    requires |q| == |p| && forall i :: 0 <= i < |p| ==> q[i] == (if p[i] == '\\' then '/' else p[i])
    requires |r| <= |q| && r == q[|q| - |r|..] && '/' !in r
    requires '/' !in q ==> r == q
    requires '/' in q ==> |r| < |q| && q[|q| - |r| - 1] == '/'
    ensures r == p[|p| - |r|..]
    ensures '/' !in p && '\\' !in p ==> r == p
    ensures |r| < |p| ==> p[|p| - |r| - 1] == '/' || p[|p| - |r| - 1] == '\\'
  {
    var m := |p| - |r|;
    forall k | 0 <= k < |r| ensures r[k] == p[m + k] {
      assert r[k] == q[m + k] && r[k] in r;
    }
    if '/' !in p && '\\' !in p {
      assert forall k :: 0 <= k < |p| ==> q[k] == p[k];
      assert q == p;
    }
  }

  /** transformFileNamePattern2ZipEntry: the last path element of the pattern,
      with either separator. */
  function ZipEntryPattern(fileNamePattern: string): (r: string)
    ensures '/' !in r && '\\' !in r
    ensures |r| <= |fileNamePattern| && r == Slashify(fileNamePattern)[|fileNamePattern| - |r|..]
    // A suffix of the pattern itself: the whole pattern when it has no
    // separator, and otherwise what follows its last separator.
    ensures r == fileNamePattern[|fileNamePattern| - |r|..]
    ensures '/' !in fileNamePattern && '\\' !in fileNamePattern ==> r == fileNamePattern
    ensures |r| < |fileNamePattern| ==>
      fileNamePattern[|fileNamePattern| - |r| - 1] == '/' || fileNamePattern[|fileNamePattern| - |r| - 1] == '\\'
  {
    var slashified := Slashify(fileNamePattern);
    var r := AfterLastSlash(slashified);
    assert forall k :: 0 <= k < |r| ==> r[k] == slashified[|slashified| - |r| + k];
    AfterLastSeparator(fileNamePattern, slashified, r);
    r
  }

  // ---------------------------------------------------------------------------
  // The decimal form of System.nanoTime() in the temporary file name

  function Digit(d: nat): char
    requires d < 10
  {
    "0123456789"[d]
  }

  function DigitValue(c: char): nat
  {
    if '0' <= c <= '9' then (c as int - '0' as int) as nat else 0
  }

  /** Long.toString on a non-negative value. */
  function NatToDecimal(n: nat): (r: string)
    ensures |r| >= 1
    ensures forall i :: 0 <= i < |r| ==> '0' <= r[i] <= '9'
  {
    if n < 10 then [Digit(n)] else NatToDecimal(n / 10) + [Digit(n % 10)]
  }

  /** The value of a string of decimal digits, most significant first. */
  function DecimalValue(s: string): nat
  {
    if s == [] then 0 else 10 * DecimalValue(s[..|s| - 1]) + DigitValue(s[|s| - 1])
  }

  lemma DigitValueOfDigit(d: nat)
    requires d < 10
    ensures DigitValue(Digit(d)) == d
  {
  }

  /** The decimal form reads back as the number it was made from. */
  lemma {:induction false} NatToDecimalValue(n: nat)
    ensures DecimalValue(NatToDecimal(n)) == n
  {
    var r := NatToDecimal(n);
    if n < 10 {
      assert r[..0] == [];
      DigitValueOfDigit(n);
    } else {
      assert r == NatToDecimal(n / 10) + [Digit(n % 10)];
      assert r[..|r| - 1] == NatToDecimal(n / 10);
      DigitValueOfDigit(n % 10);
      NatToDecimalValue(n / 10);
    }
  }

  /** Long.toString: a leading '-' for a negative value (System.nanoTime() may
      be negative). */
  function LongToDecimal(n: int): (r: string)
    ensures n >= 0 ==> r == NatToDecimal(n)
    ensures n < 0 ==> r == "-" + NatToDecimal(-n)
  {
    if n < 0 then "-" + NatToDecimal(-n) else NatToDecimal(n)
  }

  /** The name the raw file is renamed to before it is compressed. */
  function TempName(nameOfCompressedFile: string, nanoTime: int): (tmp: string)
    ensures nameOfCompressedFile < tmp
    ensures tmp != nameOfCompressedFile
    ensures |tmp| >= |nameOfCompressedFile| + 5 && tmp[|tmp| - 4..] == ".tmp"
  {
    nameOfCompressedFile + LongToDecimal(nanoTime) + ".tmp"
  }

  /** Distinct readings are written differently. */
  lemma NatToDecimalInjective(a: nat, b: nat)
    requires NatToDecimal(a) == NatToDecimal(b)
    ensures a == b
  {
    NatToDecimalValue(a);
    NatToDecimalValue(b);
  }

  /** The written form starts with '-' exactly for a negative reading. */
  lemma LongToDecimalSign(n: int)
    ensures |LongToDecimal(n)| > 0 && (LongToDecimal(n)[0] == '-' <==> n < 0)
  {
    if n >= 0 {
      var d := NatToDecimal(n);
      assert '0' <= d[0] <= '9';
    }
  }

  lemma SignedDecimalInjective(a: nat, b: nat)
    requires "-" + NatToDecimal(a) == "-" + NatToDecimal(b)
    ensures a == b
  {
    var x, y := NatToDecimal(a), NatToDecimal(b);
    assert x == ("-" + x)[1..] && y == ("-" + y)[1..];
    NatToDecimalInjective(a, b);
  }

  lemma LongToDecimalInjective(a: int, b: int)
    requires LongToDecimal(a) == LongToDecimal(b)
    ensures a == b
  {
    LongToDecimalSign(a);
    LongToDecimalSign(b);
    if a < 0 {
      assert b < 0;
      SignedDecimalInjective(-a, -b);
    } else {
      assert b >= 0;
      NatToDecimalInjective(a, b);
    }
  }

  /** Two rollovers onto the same archive name at distinct clock readings use
      distinct temporary names. */
  lemma TempNameInjective(nameOfCompressedFile: string, a: int, b: int)
    requires TempName(nameOfCompressedFile, a) == TempName(nameOfCompressedFile, b)
    ensures a == b
  {
    var n := |nameOfCompressedFile|;
    var ta, tb := TempName(nameOfCompressedFile, a), TempName(nameOfCompressedFile, b);
    assert LongToDecimal(a) == ta[n..|ta| - 4];
    assert LongToDecimal(b) == tb[n..|tb| - 4];
    LongToDecimalInjective(a, b);
  }

  // ---------------------------------------------------------------------------
  // The rollover decision

  /** The renames and compressions in a log, in order (clean-ups and waits
      dropped). */
  function FileOps(log: seq<Action>): (ops: seq<Action>)
    ensures |ops| <= |log|
    ensures forall a :: a in ops ==> a in log && (a.Rename? || a.Compress?)
  {
    if log == [] then []
    else
      var rest := FileOps(log[1..]);
      if log[0].Rename? || log[0].Compress? then [log[0]] + rest else rest
  }

  lemma {:induction false} FileOpsAppend(a: seq<Action>, b: seq<Action>)
    ensures FileOps(a + b) == FileOps(a) + FileOps(b)
  {
    if a == [] {
      assert a + b == b;
    } else {
      assert (a + b)[0] == a[0];
      assert (a + b)[1..] == a[1..] + b;
      FileOpsAppend(a[1..], b);
    }
  }

  /** The effect of one rollover: the actions it asks for, the futures it
      stores, and whether it ends in a RolloverFailure. */
  datatype Plan = Plan(actions: seq<Action>, compression: Option<Action>, cleanup: Option<Action>, failed: bool)

  /** renameRawAndAsyncCompress: rename the raw file to a temporary name, then
      compress that file into `nameOfCompressedFile`; a failed rename stops it. */
  function RenameRawPlan(raw: string, nameOfCompressedFile: string, innerEntryName: string,
                         nanoTime: int, renameSucceeds: bool): Plan
  {
    var tmp := TempName(nameOfCompressedFile, nanoTime);
    if renameSucceeds then
      Plan([Rename(raw, tmp), Compress(tmp, nameOfCompressedFile, innerEntryName)],
           Some(Compress(tmp, nameOfCompressedFile, innerEntryName)), None, false)
    else
      Plan([Rename(raw, tmp)], None, None, true)
  }

  /** The compressed file is the file the raw file was renamed to, and the
      temporary name is never the archive's own name; a failed rename is the
      last thing that happens. */
  lemma RenameRawPlanCompressesRenamedFile(raw: string, nameOfCompressedFile: string, innerEntryName: string,
                                           nanoTime: int, renameSucceeds: bool)
    ensures var p := RenameRawPlan(raw, nameOfCompressedFile, innerEntryName, nanoTime, renameSucceeds);
      && p.cleanup == None
      && (p.failed <==> !renameSucceeds)
      && |p.actions| >= 1 && p.actions[0] == Rename(raw, p.actions[0].dst)
      && p.actions[0].dst != nameOfCompressedFile
      && (p.failed ==> |p.actions| == 1 && p.compression == None)
      && (!p.failed ==>
            && p.actions == [p.actions[0], Compress(p.actions[0].dst, nameOfCompressedFile, innerEntryName)]
            && p.compression == Some(p.actions[1]))
  {
  }

  /** The file half of rollover: what it does with the elapsed period's file. */
  function FilePlan(mode: CompressionMode, raw: Option<string>, elapsed: string,
                    nanoTime: int, renameSucceeds: bool): Plan
  {
    var stem := AfterLastSlash(elapsed);
    if mode == NoCompression then
      if raw.Some? then Plan([Rename(raw.value, elapsed)], None, None, !renameSucceeds)
      else Plan([], None, None, false)
    else if raw.None? then
      Plan([Compress(elapsed, elapsed, stem)], Some(Compress(elapsed, elapsed, stem)), None, false)
    else RenameRawPlan(raw.value, elapsed, stem, nanoTime, renameSucceeds)
  }

  /** What the file half of rollover does, case by case. */
  lemma FilePlanCases(mode: CompressionMode, raw: Option<string>, elapsed: string,
                      nanoTime: int, renameSucceeds: bool)
    ensures var p := FilePlan(mode, raw, elapsed, nanoTime, renameSucceeds);
      && p.cleanup == None
      // A RolloverFailure comes only from a failed rename of the raw file.
      && (p.failed <==> raw.Some? && !renameSucceeds)
      // Only renames and compressions, and every compression entry is a bare file name.
      && (forall a :: a in p.actions ==> (a.Rename? || a.Compress?) && (a.Compress? ==> '/' !in a.entry))
      // Without compression: one rename of the raw file onto the elapsed name, or nothing.
      && (mode == NoCompression ==>
            && p.actions == (if raw.Some? then [Rename(raw.value, elapsed)] else [])
            && p.compression == None)
      // Compression, no raw file: the elapsed file is compressed onto itself.
      && (mode != NoCompression && raw.None? ==>
            && p.actions == [Compress(elapsed, elapsed, AfterLastSlash(elapsed))]
            && p.compression == Some(p.actions[0]))
      // Compression with a raw file: rename to a temporary name distinct from the
      // elapsed name, then compress exactly that file onto the elapsed name.
      && (mode != NoCompression && raw.Some? ==>
            && |p.actions| >= 1 && p.actions[0] == Rename(raw.value, TempName(elapsed, nanoTime))
            && p.actions[0].dst != elapsed
            && (renameSucceeds ==>
                  && p.actions == [p.actions[0], Compress(p.actions[0].dst, elapsed, AfterLastSlash(elapsed))]
                  && p.compression == Some(p.actions[1]))
            && (!renameSucceeds ==> |p.actions| == 1 && p.compression == None))
  {
    if mode != NoCompression && raw.Some? {
      RenameRawPlanCompressesRenamedFile(raw.value, elapsed, AfterLastSlash(elapsed), nanoTime, renameSucceeds);
    }
  }

  /** A log of renames and compressions only is its own file-operation list. */
  lemma {:induction false} FileOpsOfFileActions(log: seq<Action>)
    requires forall a :: a in log ==> a.Rename? || a.Compress?
    ensures FileOps(log) == log
  {
    if log != [] {
      assert forall a :: a in log[1..] ==> a in log;
      FileOpsOfFileActions(log[1..]);
    }
  }

  /** rollover: the file plan, then a clean-up when an archive remover exists
      and the file plan did not throw. */
  function RolloverPlan(mode: CompressionMode, raw: Option<string>, elapsed: string, nanoTime: int,
                        now: int, remover: Option<ArchiveRemover>, renameSucceeds: bool): Plan
  {
    var files := FilePlan(mode, raw, elapsed, nanoTime, renameSucceeds);
    if !files.failed && remover.Some? then
      files.(actions := files.actions + [Clean(now)], cleanup := Some(Clean(now)))
    else
      files
  }

  /** A rollover does the file plan's renames and compressions, in order, then
      schedules a clean-up exactly when a remover exists and nothing threw. */
  lemma RolloverPlanCleansLast(mode: CompressionMode, raw: Option<string>, elapsed: string, nanoTime: int,
                               now: int, remover: Option<ArchiveRemover>, renameSucceeds: bool)
    ensures var p := RolloverPlan(mode, raw, elapsed, nanoTime, now, remover, renameSucceeds);
      var files := FilePlan(mode, raw, elapsed, nanoTime, renameSucceeds);
      && (p.failed <==> raw.Some? && !renameSucceeds)
      && FileOps(p.actions) == files.actions
      && p.compression == files.compression
      && (Clean(now) in p.actions <==> remover.Some? && !p.failed)
      && (p.cleanup.Some? <==> remover.Some? && !p.failed)
      && (p.cleanup.Some? ==> p.cleanup == Some(Clean(now)) && p.actions[|p.actions| - 1] == Clean(now))
  {
    var files := FilePlan(mode, raw, elapsed, nanoTime, renameSucceeds);
    FilePlanCases(mode, raw, elapsed, nanoTime, renameSucceeds);
    FileOpsOfFileActions(files.actions);
    if !files.failed && remover.Some? {
      FileOpsAppend(files.actions, [Clean(now)]);
    }
  }

  // ---------------------------------------------------------------------------
  // stop

  /** waitForAsynchronousJobToStop, on the log: a wait for the job, if any. */
  function WaitLog(future: Option<Action>): seq<Action>
  {
    if future.Some? then [Await(future.value)] else []
  }

  /** waitForAsynchronousJobToStop, on the status list: an error for a wait
      that did not complete. */
  function WaitStatuses(future: Option<Action>, outcome: WaitOutcome): seq<Level>
  {
    if future.Some? && outcome != Completed then [Error] else []
  }

  // ---------------------------------------------------------------------------

  class TimeBasedRollingPolicy<E> {
    const support: PatternSupport
    /** The <fileNamePattern> option; None when not set. */
    var fileNamePatternStr: Option<string>
    /** The parent appender's <file> option; None when not set. */
    var parentsRawFileProperty: Option<string>
    var fileNamePattern: Option<string>
    var compressionMode: CompressionMode
    var fileNamePatternWithoutCompSuffix: Option<string>
    var zipEntryFileNamePattern: Option<string>
    var namingPolicy: Option<NamingPolicy<E>>
    var maxHistory: int
    var totalSizeCap: int
    var cleanHistoryOnStart: bool
    var archiveRemover: Option<ArchiveRemover>
    var compressionFuture: Option<Action>
    var cleanUpFuture: Option<Action>
    var started: bool
    /** What the policy asked of the file system, compressor and executor. */
    var actions: seq<Action>
    /** The entries recorded in the status manager. */
    var statuses: seq<Level>

    /** What start establishes and every operation keeps. */
    ghost predicate Valid()
      reads this
    {
      StartedConfigured() && RemoverBounded() && ZipEntryBare() && FuturesTyped()
    }

    /** A started policy has its patterns and its sub-policy. */
    ghost predicate StartedConfigured()
      reads this`started, this`fileNamePattern, this`fileNamePatternWithoutCompSuffix, this`namingPolicy
    {
      started ==> fileNamePattern.Some? && fileNamePatternWithoutCompSuffix.Some? && namingPolicy.Some?
    }

    /** An archive remover exists only for a bounded history. */
    ghost predicate RemoverBounded()
      reads this`archiveRemover
    {
      archiveRemover.Some? ==> archiveRemover.value.maxHistory != UNBOUND_HISTORY
    }

    /** The zip entry-name pattern is a bare file name. */
    ghost predicate ZipEntryBare()
      reads this`zipEntryFileNamePattern
    {
      zipEntryFileNamePattern.Some? ==> '/' !in zipEntryFileNamePattern.value
    }

    /** The stored futures are a compression and a clean-up job. */
    ghost predicate FuturesTyped()
      reads this`compressionFuture, this`cleanUpFuture
    {
      && (compressionFuture.Some? ==> compressionFuture.value.Compress?)
      && (cleanUpFuture.Some? ==> cleanUpFuture.value.Clean?)
    }

    constructor (support: PatternSupport, fileNamePatternStr: Option<string>, parentsRawFileProperty: Option<string>)
      ensures Valid() && !started
      ensures this.support == support && this.fileNamePatternStr == fileNamePatternStr
      ensures this.parentsRawFileProperty == parentsRawFileProperty
      ensures fileNamePattern == None && fileNamePatternWithoutCompSuffix == None && zipEntryFileNamePattern == None
      ensures compressionMode == NoCompression && namingPolicy == None
      ensures maxHistory == UNBOUND_HISTORY && totalSizeCap == UNBOUNDED_TOTAL_SIZE_CAP && !cleanHistoryOnStart
      ensures archiveRemover == None && compressionFuture == None && cleanUpFuture == None
      ensures actions == [] && statuses == []
    {
      this.support := support;
      this.fileNamePatternStr := fileNamePatternStr;
      this.parentsRawFileProperty := parentsRawFileProperty;
      fileNamePattern := None;
      compressionMode := NoCompression;
      fileNamePatternWithoutCompSuffix := None;
      zipEntryFileNamePattern := None;
      namingPolicy := None;
      maxHistory := UNBOUND_HISTORY;
      totalSizeCap := UNBOUNDED_TOTAL_SIZE_CAP;
      cleanHistoryOnStart := false;
      archiveRemover := None;
      compressionFuture := None;
      cleanUpFuture := None;
      started := false;
      actions := [];
      statuses := [];
    }

    /** start. `defaultPolicy` is the sub-policy created when none was set,
        `subPolicyStarts` whether the sub-policy reports itself started after
        its own start, and `now` its current time. */
    method Start(defaultPolicy: NamingPolicy<E>, subPolicyStarts: bool, now: int)
      returns (r: Result<(), IllegalState>)
      requires Valid()
      modifies this`fileNamePattern, this`compressionMode, this`fileNamePatternWithoutCompSuffix,
               this`zipEntryFileNamePattern, this`namingPolicy, this`archiveRemover, this`cleanUpFuture,
               this`started, this`actions, this`statuses
      ensures Valid()
      // No pattern: two warnings, an IllegalStateException, nothing else changes.
      ensures old(fileNamePatternStr).None? ==>
        && r == Err(FileNamePatternNotSet)
        && statuses == old(statuses) + [Warn, Warn]
        && started == old(started) && actions == old(actions)
        && fileNamePattern == old(fileNamePattern) && compressionMode == old(compressionMode)
        && namingPolicy == old(namingPolicy) && archiveRemover == old(archiveRemover)
        && cleanUpFuture == old(cleanUpFuture)
        && fileNamePatternWithoutCompSuffix == old(fileNamePatternWithoutCompSuffix)
        && zipEntryFileNamePattern == old(zipEntryFileNamePattern)
      ensures old(fileNamePatternStr).Some? ==>
        var p := old(fileNamePatternStr).value;
        var mode := support.compressionModeOf(p);
        var bounded := maxHistory != UNBOUND_HISTORY;
        var cleansNow := bounded && cleanHistoryOnStart;
        && r == Ok(())
        && fileNamePattern == Some(p) && compressionMode == mode
        && fileNamePatternWithoutCompSuffix == Some(support.withoutCompSuffix(p, mode))
        && zipEntryFileNamePattern == (if mode == Zip then Some(ZipEntryPattern(p)) else old(zipEntryFileNamePattern))
        && namingPolicy == (if old(namingPolicy).None? then Some(defaultPolicy) else old(namingPolicy))
        // The sub-policy did not start: a warning, and no remover, clean-up or start.
        && (!subPolicyStarts ==>
              && statuses == old(statuses) + [Info, Warn]
              && started == old(started) && actions == old(actions)
              && archiveRemover == old(archiveRemover) && cleanUpFuture == old(cleanUpFuture))
        && (subPolicyStarts ==>
              && started
              // A remover, carrying both limits, exactly when the history is bounded.
              && archiveRemover == (if bounded then Some(ArchiveRemover(maxHistory, totalSizeCap)) else old(archiveRemover))
              // A clean-up at start exactly when bounded and asked for.
              && cleanUpFuture == (if cleansNow then Some(Clean(now)) else old(cleanUpFuture))
              && actions == old(actions) + (if cleansNow then [Clean(now)] else [])
              // A size cap without a history limit is only warned about.
              && statuses == old(statuses) + [Info]
                   + (if cleansNow then [Info] else [])
                   + (if !bounded && totalSizeCap != UNBOUNDED_TOTAL_SIZE_CAP then [Warn] else []))
    {
      if fileNamePatternStr.None? {
        statuses := statuses + [Warn, Warn];
        return Err(FileNamePatternNotSet);
      }
      var p := fileNamePatternStr.value;
      InstallPatterns(p);
      if namingPolicy.None? {
        namingPolicy := Some(defaultPolicy);
      }
      r := Ok(());
      if !subPolicyStarts {
        statuses := statuses + [Warn];
        return;
      }
      InstallArchiveRemover(now);
      started := true;
    }

    /** The first part of start, for a set pattern: the pattern, the compression
        mode its suffix calls for, the active-file pattern without that suffix
        (announced by an info entry) and, for zip, the entry-name pattern. */
    method InstallPatterns(p: string)
      requires Valid()
      modifies this`fileNamePattern, this`compressionMode, this`fileNamePatternWithoutCompSuffix,
               this`zipEntryFileNamePattern, this`statuses
      ensures Valid()
      ensures fileNamePattern == Some(p) && compressionMode == support.compressionModeOf(p)
      ensures fileNamePatternWithoutCompSuffix == Some(support.withoutCompSuffix(p, compressionMode))
      ensures zipEntryFileNamePattern == (if compressionMode == Zip then Some(ZipEntryPattern(p)) else old(zipEntryFileNamePattern))
      ensures statuses == old(statuses) + [Info]
    {
      var entry := ZipEntryPattern(p);
      assert '/' !in entry;
      fileNamePattern := Some(p);
      compressionMode := support.compressionModeOf(p);
      fileNamePatternWithoutCompSuffix := Some(support.withoutCompSuffix(p, compressionMode));
      statuses := statuses + [Info];
      if compressionMode == Zip {
        zipEntryFileNamePattern := Some(entry);
      }
    }

    /** The retention part of start, once the sub-policy has started: a remover
        carrying both limits exactly when the history is bounded, a clean-up at
        start when also asked for, and only a warning for a size cap without a
        history limit. */
    method InstallArchiveRemover(now: int)
      requires Valid()
      modifies this`archiveRemover, this`cleanUpFuture, this`actions, this`statuses
      ensures Valid()
      ensures
        var bounded := maxHistory != UNBOUND_HISTORY;
        var cleansNow := bounded && cleanHistoryOnStart;
        && archiveRemover == (if bounded then Some(ArchiveRemover(maxHistory, totalSizeCap)) else old(archiveRemover))
        && cleanUpFuture == (if cleansNow then Some(Clean(now)) else old(cleanUpFuture))
        && actions == old(actions) + (if cleansNow then [Clean(now)] else [])
        && statuses == old(statuses)
             + (if cleansNow then [Info] else [])
             + (if !bounded && totalSizeCap != UNBOUNDED_TOTAL_SIZE_CAP then [Warn] else [])
    {
      if maxHistory != UNBOUND_HISTORY {
        archiveRemover := Some(ArchiveRemover(maxHistory, totalSizeCap));
        if cleanHistoryOnStart {
          statuses := statuses + [Info];
          cleanUpFuture := Some(Clean(now));
          actions := actions + [Clean(now)];
        }
      } else if !IsUnboundedTotalSizeCap() {
        statuses := statuses + [Warn];
      }
    }

    /** isUnboundedTotalSizeCap: no limit on the archives' total size is set. */
    predicate IsUnboundedTotalSizeCap(): (unbounded: bool)
      reads this
      ensures unbounded <==> totalSizeCap == UNBOUNDED_TOTAL_SIZE_CAP
    {
      totalSizeCap == UNBOUNDED_TOTAL_SIZE_CAP
    }

    /** stop: nothing unless started; otherwise waits for the compression job,
        then for the clean-up job, reporting (never throwing) a wait that did
        not complete, and stops. */
    method Stop(compressionWait: WaitOutcome, cleanupWait: WaitOutcome)
      requires Valid()
      modifies this`actions, this`statuses, this`started
      ensures Valid()
      ensures !old(started) ==> actions == old(actions) && statuses == old(statuses) && !started
      ensures old(started) ==>
        && !started
        && actions == old(actions) + WaitLog(compressionFuture) + WaitLog(cleanUpFuture)
        && statuses == old(statuses) + WaitStatuses(compressionFuture, compressionWait)
                                     + WaitStatuses(cleanUpFuture, cleanupWait)
    {
      if !started {
        return;
      }
      WaitForAsynchronousJobToStop(compressionFuture, compressionWait);
      WaitForAsynchronousJobToStop(cleanUpFuture, cleanupWait);
      started := false;
    }

    /** waitForAsynchronousJobToStop */
    method WaitForAsynchronousJobToStop(future: Option<Action>, outcome: WaitOutcome)
      modifies this`actions, this`statuses
      ensures actions == old(actions) + WaitLog(future)
      ensures statuses == old(statuses) + WaitStatuses(future, outcome)
    {
      if future.Some? {
        actions := actions + [Await(future.value)];
        if outcome != Completed {
          statuses := statuses + [Error];
        }
      }
    }

    /** rollover, for the elapsed period's file name `elapsed` given by the
        sub-policy, the clock readings `nanoTime` and `now`, and whether the
        rename of the raw file succeeds. */
    method Rollover(elapsed: string, nanoTime: int, now: int, renameSucceeds: bool)
      returns (r: Result<(), RolloverFailure>)
      requires Valid() && namingPolicy.Some?
      modifies this`actions, this`compressionFuture, this`cleanUpFuture
      ensures Valid()
      ensures
        var p := RolloverPlan(compressionMode, parentsRawFileProperty, elapsed, nanoTime, now,
                              archiveRemover, renameSucceeds);
        && (r.Err? <==> p.failed)
        && actions == old(actions) + p.actions
        && compressionFuture == (if p.compression.Some? then p.compression else old(compressionFuture))
        && cleanUpFuture == (if p.cleanup.Some? then p.cleanup else old(cleanUpFuture))
    {
      r := RollElapsedFile(elapsed, nanoTime, renameSucceeds);
      if r.Err? {
        return;
      }
      if archiveRemover.Some? {
        cleanUpFuture := Some(Clean(now));
        actions := actions + [Clean(now)];
      }
    }

    /** The first half of rollover: rename, compress, or both, according to the
        compression mode and the raw file property. */
    method RollElapsedFile(elapsed: string, nanoTime: int, renameSucceeds: bool)
      returns (r: Result<(), RolloverFailure>)
      requires Valid()
      modifies this`actions, this`compressionFuture
      ensures Valid()
      ensures
        var p := FilePlan(compressionMode, parentsRawFileProperty, elapsed, nanoTime, renameSucceeds);
        && (r.Err? <==> p.failed)
        && actions == old(actions) + p.actions
        && compressionFuture == (if p.compression.Some? then p.compression else old(compressionFuture))
    {
      var stem := AfterLastSlash(elapsed);
      if compressionMode == NoCompression {
        if parentsRawFileProperty.Some? {
          actions := actions + [Rename(parentsRawFileProperty.value, elapsed)];
          if !renameSucceeds {
            return Err(RenameFailed);
          }
        }
      } else {
        if parentsRawFileProperty.None? {
          compressionFuture := Some(Compress(elapsed, elapsed, stem));
          actions := actions + [Compress(elapsed, elapsed, stem)];
        } else {
          var future := RenameRawAndAsyncCompress(elapsed, stem, nanoTime, renameSucceeds);
          if future.Err? {
            return Err(future.error);
          }
          compressionFuture := Some(future.value);
        }
      }
      r := Ok(());
    }

    /** renameRawAndAsyncCompress */
    method RenameRawAndAsyncCompress(nameOfCompressedFile: string, innerEntryName: string,
                                     nanoTime: int, renameSucceeds: bool)
      returns (future: Result<Action, RolloverFailure>)
      requires parentsRawFileProperty.Some?
      modifies this`actions
      ensures
        var p := RenameRawPlan(parentsRawFileProperty.value, nameOfCompressedFile, innerEntryName,
                               nanoTime, renameSucceeds);
        && actions == old(actions) + p.actions
        && (future.Err? <==> p.failed)
        && (future.Ok? ==> Some(future.value) == p.compression)
    {
      var tmpTarget := TempName(nameOfCompressedFile, nanoTime);
      actions := actions + [Rename(parentsRawFileProperty.value, tmpTarget)];
      if !renameSucceeds {
        return Err(RenameFailed);
      }
      actions := actions + [Compress(tmpTarget, nameOfCompressedFile, innerEntryName)];
      future := Ok(Compress(tmpTarget, nameOfCompressedFile, innerEntryName));
    }

    /** getActiveFileName: the raw file property when set, otherwise the
        sub-policy's current-period name without compression suffix. */
    function ActiveFileName(currentPeriodsFileNameWithoutCompressionSuffix: string): (name: string)
      reads this
      requires parentsRawFileProperty.Some? || namingPolicy.Some?
      ensures parentsRawFileProperty.Some? ==> name == parentsRawFileProperty.value
      ensures parentsRawFileProperty.None? ==> name == currentPeriodsFileNameWithoutCompressionSuffix
    {
      if parentsRawFileProperty.Some? then parentsRawFileProperty.value
      else currentPeriodsFileNameWithoutCompressionSuffix
    }

    /** isTriggeringEvent: the sub-policy's decision. */
    function IsTriggeringEvent(activeFile: string, event: E): (b: bool)
      reads this
      requires namingPolicy.Some?
      ensures b == namingPolicy.value.isTriggeringEvent(activeFile, event)
    {
      namingPolicy.value.isTriggeringEvent(activeFile, event)
    }

    method SetMaxHistory(maxHistory: int)
      requires Valid()
      modifies this`maxHistory
      ensures Valid() && this.maxHistory == maxHistory
    {
      this.maxHistory := maxHistory;
    }

    method SetCleanHistoryOnStart(cleanHistoryOnStart: bool)
      requires Valid()
      modifies this`cleanHistoryOnStart
      ensures Valid() && this.cleanHistoryOnStart == cleanHistoryOnStart
    {
      this.cleanHistoryOnStart := cleanHistoryOnStart;
    }

    /** setTotalSizeCap: records an info entry. */
    method SetTotalSizeCap(totalSizeCap: int)
      requires Valid()
      modifies this`totalSizeCap, this`statuses
      ensures Valid() && this.totalSizeCap == totalSizeCap && statuses == old(statuses) + [Info]
    {
      statuses := statuses + [Info];
      this.totalSizeCap := totalSizeCap;
    }

    method SetTimeBasedFileNamingAndTriggeringPolicy(policy: NamingPolicy<E>)
      requires Valid()
      modifies this`namingPolicy
      ensures Valid() && namingPolicy == Some(policy)
    {
      namingPolicy := Some(policy);
    }
  }
}
