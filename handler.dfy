/** The log handler of core.go run sequentially: configuration normalisation,
    the initial rotation cursor, the producer side of the queue, the writer step
    and the two rotation policies, over an abstract filesystem. */
module Core {
  import opened Wrappers
  import opened Levels
  import opened Naming
  import opened Files
  import opened Config

  /** What `inputData` does to the queue of pending lines: a dropped entry leaves
      it as it is, an accepted one adds exactly its formatted line at the tail. */
  function Enqueue(queue: seq<string>, minLevel: int, prefix: string,
                   level: int, timestamp: string, data: string): (q: seq<string>)
    ensures |q| == |queue| || |q| == |queue| + 1
    ensures q[..|queue|] == queue
    ensures |q| == |queue| + 1 <==> Accepts(minLevel, level)
    ensures |q| == |queue| + 1 ==> q[|queue|] == FormatEntry(timestamp, level, prefix, data)
  {
    if Accepts(minLevel, level) then queue + [FormatEntry(timestamp, level, prefix, data)] else queue
  }

  /** The size policy fires when rotation is enabled (more than one file) and the
      primary file has reached the size threshold. */
  predicate SizeRotationDue(fileCount: int, fileSize: nat, curSize: nat) {
    !(fileCount <= 1) && !(curSize < fileSize)
  }

  /** The cursor after one size rotation, `fileIndex % fileCount + 1`: it cycles
      through 1..fileCount and wraps from fileCount back to 1. */
  function NextIndex(index: int, count: int): (next: int)
    requires count >= 1 && 0 <= index <= count
    ensures 1 <= next <= count
    ensures index < count ==> next == index + 1
    ensures index == count ==> next == 1
  {
    index % count + 1
  }

  /** The size archive with index `i` is absent. */
  predicate SlotFree(fs: FileSystem, path: string, i: nat) {
    ArchiveName(path, Itoa(i)) !in fs
  }

  /** The value of `fileIndex` after the scan loop of `init` ran from index `i`
      with `fileIndex == cur`: each missing archive moves the cursor onto it, the
      first existing one stops the scan. */
  function ScanFrom(fs: FileSystem, path: string, count: int, i: nat, cur: int): (r: int)
    requires i <= count
    ensures r == cur || i <= r < count
    decreases count - i
  {
    if i == count || !SlotFree(fs, path, i) then cur
    else ScanFrom(fs, path, count, i + 1, i)
  }

  lemma {:induction false} ScanFromFree(fs: FileSystem, path: string, count: int, i: nat)
    requires 1 <= i <= count
    requires forall j: nat :: j < i ==> SlotFree(fs, path, j)
    ensures var r := ScanFrom(fs, path, count, i, i - 1);
      i - 1 <= r < count
      && (forall j: nat :: j <= r ==> SlotFree(fs, path, j))
      && (r + 1 < count ==> !SlotFree(fs, path, r + 1))
    decreases count - i
  {
    if i < count && SlotFree(fs, path, i) {
      ScanFromFree(fs, path, count, i + 1);
    }
  }

  /** What the scan finds: when archive 0 exists the cursor keeps its initial
      value; otherwise it is the largest index below fileCount such that no
      archive from 0 up to it exists. */
  lemma ScanIndexSpec(fs: FileSystem, path: string, count: int, start: int)
    requires count >= 1
    ensures !SlotFree(fs, path, 0) ==> ScanFrom(fs, path, count, 0, start) == start
    ensures SlotFree(fs, path, 0) ==>
      var r := ScanFrom(fs, path, count, 0, start);
      0 <= r < count
      && (forall j: nat :: j <= r ==> SlotFree(fs, path, j))
      && (r + 1 < count ==> !SlotFree(fs, path, r + 1))
  {
    if SlotFree(fs, path, 0) {
      ScanFromFree(fs, path, count, 1);
    }
  }

  /** Only the archives `.1` .. `.fileCount` are ever written by size rotation: if
      no other numbered archive exists before a rotation onto a slot of the ring,
      none exists after it. */
  lemma {:induction false} RotationStaysInRing(fs: FileSystem, path: string, count: int, index: int)
    requires 1 <= index <= count
    requires forall i: nat :: (i == 0 || i > count) ==> ArchiveName(path, Itoa(i)) !in fs
    ensures ArchiveName(path, Itoa(index)) != path
    ensures forall i: nat :: (i == 0 || i > count) ==>
      ArchiveName(path, Itoa(i)) !in Archived(fs, path, ArchiveName(path, Itoa(index)))
  {
    ArchiveNameInjective(path, Itoa(index), Itoa(index));
    forall i: nat | i == 0 || i > count
      ensures ArchiveName(path, Itoa(i)) !in Archived(fs, path, ArchiveName(path, Itoa(index)))
    {
      SizeArchivesDistinct(path, i, index);
      ArchiveNameInjective(path, Itoa(i), Itoa(i));
      ArchivedKeepsOthers(fs, path, ArchiveName(path, Itoa(index)), ArchiveName(path, Itoa(i)));
    }
  }

  /** A size rotation onto slot `index` leaves every other numbered archive as it was. */
  lemma OtherSlotsKept(fs: FileSystem, path: string, index: nat)
    ensures ArchiveName(path, Itoa(index)) != path
    ensures forall j: nat :: j != index ==>
      SameEntry(fs, Archived(fs, path, ArchiveName(path, Itoa(index))), ArchiveName(path, Itoa(j)))
  {
    ArchiveNameInjective(path, Itoa(index), Itoa(index));
    forall j: nat | j != index
      ensures SameEntry(fs, Archived(fs, path, ArchiveName(path, Itoa(index))), ArchiveName(path, Itoa(j)))
    {
      SizeArchivesDistinct(path, j, index);
      ArchiveNameInjective(path, Itoa(j), Itoa(j));
      ArchivedKeepsOthers(fs, path, ArchiveName(path, Itoa(index)), ArchiveName(path, Itoa(j)));
    }
  }

  class LogHandler {
    // Configuration, set by Validate.
    var console: bool
    var sliceType: int
    var prefix: string
    var level: int
    var fileDir: string
    var fileName: string
    var fileCount: int
    var fileSize: Uint64

    // Rotation cursors: the last size archive index, the day being logged.
    var fileIndex: int
    var curDate: Option<Date>

    // The sink: whether a handle on the primary file is open, and the files.
    var handleOpen: bool
    var fs: FileSystem

    // The buffered channel: whether init made it, and the lines waiting in it.
    var hasChannel: bool
    var queue: seq<string>

    // Lines echoed to standard output.
    var stdout: seq<string>

    // Whether init got as far as starting the writer and rotation workers.
    var running: bool

    /** The primary log file. */
    function Primary(): string
      reads this
    {
      JoinPath(fileDir, fileName)
    }

    /** The bounds Validate establishes. */
    ghost predicate ConfigValid()
      reads this
    {
      IsLevel(level) && IsSliceType(sliceType) && fileCount >= 1
    }

    /** The handler invariant after a configuration was accepted. */
    ghost predicate Valid()
      reads this
    {
      && ConfigValid()
      && hasChannel
      && 0 <= fileIndex <= fileCount
      && (handleOpen ==> Primary() in fs)
      && (sliceType == SliceTypeDate ==> curDate.Some? && ValidDate(curDate.value))
    }

    /** The configuration fields as Validate sets them from the parsed keys. */
    ghost predicate Configured(raw: RawConfig)
      reads this
    {
      && console == raw.console.GetOr(DefaultConsole)
      && sliceType == InRangeOr(raw.sliceType, SliceTypeSize, SliceTypeDate, DefaultSliceType)
      && prefix == raw.prefix.GetOr(DefaultPrefix)
      && level == InRangeOr(raw.level, LevelAll, LevelFatal, DefaultLevel)
      && fileDir == raw.fileDir.GetOr(DefaultFileDir)
      && fileName == raw.fileName.GetOr(DefaultFileName)
      && fileCount == AtLeastOr(raw.fileCount, 1, DefaultFileCount)
      && fileSize == raw.fileSize.GetOr(DefaultFileSize)
    }

    /** The state `init` leaves behind for a configuration that parsed, started
        over `files` on day `today`, with the open call succeeding or not: the
        cursor of the configured policy is set, the primary file is open for
        appending, and the first rotation check has run. */
    ghost predicate Initialised(raw: RawConfig, files: FileSystem, today: Date, openOk: bool)
      reads this
    {
      Configured(raw) && Started(files, today, openOk)
    }

    /** What `init` does after `validate`, started over `files` on day `today`. */
    ghost predicate Started(files: FileSystem, today: Date, openOk: bool)
      reads this
    {
      && Valid()
      && queue == []
      && handleOpen == openOk
      && running == openOk
      && (sliceType == SliceTypeDate ==> DateStarted(files, today, openOk))
      && (sliceType == SliceTypeSize ==> SizeStarted(files, ScanFrom(files, Primary(), fileCount, 0, 0), openOk))
    }

    /** The date policy after `init`: the day being logged is today, and the
        first check, on that same day, changed nothing. */
    ghost predicate DateStarted(files: FileSystem, today: Date, openOk: bool)
      reads this
    {
      && curDate == Some(today)
      && fileIndex == 0
      && fs == (if openOk then OpenForAppend(files, Primary()) else files)
    }

    /** The size policy after `init`: the cursor is where the scan left it
        (`scanned`), advanced by one when the first check rotated the opened
        primary file. */
    ghost predicate SizeStarted(files: FileSystem, scanned: int, openOk: bool)
      requires fileCount >= 1 && 0 <= scanned <= fileCount
      reads this
    {
      var afterOpen := OpenForAppend(files, Primary());
      var due := SizeRotationDue(fileCount, fileSize, FileSize(afterOpen, Primary()));
      && curDate == None
      && (!openOk ==> fileIndex == scanned && fs == files)
      && (openOk && !due ==> fileIndex == scanned && fs == afterOpen)
      && (openOk && due ==>
            && fileIndex == NextIndex(scanned, fileCount)
            && fs == Archived(afterOpen, Primary(), ArchiveName(Primary(), Itoa(fileIndex))))
    }

    /** The state of a handler just allocated, before init. */
    ghost predicate Unstarted()
      reads this
    {
      fileIndex == 0 && curDate == None && !handleOpen && !hasChannel && queue == [] && !running
    }

    /** `new(logHandler)`: every field at its zero value, over the given files. */
    constructor (files: FileSystem)
      ensures !console && sliceType == 0 && prefix == "" && level == 0
      ensures fileDir == "" && fileName == "" && fileCount == 0 && fileSize == 0
      ensures Unstarted() && fs == files && stdout == []
    {
      console, sliceType, prefix, level := false, 0, "", 0;
      fileDir, fileName, fileCount, fileSize := "", "", 0, 0;
      fileIndex, curDate := 0, None;
      handleOpen, fs := false, files;
      hasChannel, queue, stdout := false, [], [];
      running := false;
    }

    /** `validate`: each key keeps its value when present, of the right type and in
        range, and falls back to its default otherwise. Only a configuration that
        does not parse is an error, and then nothing is assigned. */
    method Validate(config: ConfigText) returns (err: Option<InitError>)
      modifies this`console, this`sliceType, this`prefix, this`level
      modifies this`fileDir, this`fileName, this`fileCount, this`fileSize
      ensures config.Malformed? ==> err == Some(BadConfig) && unchanged(this)
      ensures config.Json? ==> err == None && ConfigValid()
      ensures config.Json? ==> Configured(config.fields)
    {
      if config.Malformed? {
        return Some(BadConfig);
      }
      var js := config.fields;
      console := js.console.GetOr(DefaultConsole);
      sliceType := InRangeOr(js.sliceType, SliceTypeSize, SliceTypeDate, DefaultSliceType);
      prefix := js.prefix.GetOr(DefaultPrefix);
      level := InRangeOr(js.level, LevelAll, LevelFatal, DefaultLevel);
      fileDir := js.fileDir.GetOr(DefaultFileDir);
      fileName := js.fileName.GetOr(DefaultFileName);
      fileCount := AtLeastOr(js.fileCount, 1, DefaultFileCount);
      fileSize := js.fileSize.GetOr(DefaultFileSize);
      return None;
    }

    /** The scan of `init` for the size policy: walk the archive indices upwards,
        moving the cursor onto every missing archive and stopping at the first
        one that exists. */
    method InitIndex()
      requires fileCount >= 1
      modifies this`fileIndex
      ensures fileIndex == ScanFrom(fs, Primary(), fileCount, 0, old(fileIndex))
    {
      var filePath := Primary();
      var i := 0;
      while i != fileCount
        invariant 0 <= i <= fileCount
        invariant ScanFrom(fs, filePath, fileCount, i, fileIndex) == ScanFrom(fs, filePath, fileCount, 0, old(fileIndex))
        decreases fileCount - i
      {
        if ArchiveName(filePath, Itoa(i)) in fs {
          break;
        }
        fileIndex := i;
        i := i + 1;
      }
    }

    /** `init`: validate the configuration, make the channel, set the rotation
        cursor, open the primary file for appending and run one rotation check.
        `today` stands for the clock and `openOk` for the outcome of the open call.
        The workers start only after a successful open. The directory creation
        is not modelled. */
    method Init(config: ConfigText, today: Date, openOk: bool) returns (err: Option<InitError>)
      requires Unstarted() && ValidDate(today)
      modifies this
      ensures err.Some? <==> config.Malformed? || !openOk
      ensures config.Malformed? ==> unchanged(this) && err == Some(BadConfig)
      ensures config.Json? ==> Initialised(config.fields, old(fs), today, openOk) && stdout == old(stdout)
      ensures config.Json? && !openOk ==> err == Some(OpenFailed)
    {
      err := Validate(config);
      if err.Some? {
        return;
      }
      err := Start(today, openOk);
    }

    /** `init` after `validate`: make the channel, set the rotation cursor, then
        open the primary file, run one check and start the workers. */
    method Start(today: Date, openOk: bool) returns (err: Option<InitError>)
      requires ConfigValid() && Unstarted() && ValidDate(today)
      modifies this`hasChannel, this`queue, this`fileIndex, this`curDate
      modifies this`handleOpen, this`fs, this`running
      ensures err.Some? <==> !openOk
      ensures !openOk ==> err == Some(OpenFailed)
      ensures Started(old(fs), today, openOk)
    {
      hasChannel, queue := true, [];
      SetCursor(today);
      err := OpenAndCheck(today, openOk);
    }

    /** The middle of `init`: the size policy scans the archives for the
        rotation cursor, the date policy starts logging the current day. */
    method SetCursor(today: Date)
      requires ConfigValid() && fileIndex == 0 && curDate == None && ValidDate(today)
      modifies this`fileIndex, this`curDate
      ensures 0 <= fileIndex <= fileCount
      ensures sliceType == SliceTypeSize ==>
        curDate == None && fileIndex == ScanFrom(fs, Primary(), fileCount, 0, 0)
      ensures sliceType == SliceTypeDate ==> curDate == Some(today) && fileIndex == 0
    {
      if sliceType == SliceTypeSize {
        InitIndex();
      } else {
        curDate := Some(today);
      }
    }

    /** The end of `init`: open the primary file for appending, giving up when
        the open call fails, run one rotation check and start the workers. */
    method OpenAndCheck(today: Date, openOk: bool) returns (err: Option<InitError>)
      requires Valid() && ValidDate(today) && !handleOpen && !running
      requires sliceType == SliceTypeDate ==> curDate == Some(today) && fileIndex == 0
      requires sliceType == SliceTypeSize ==> curDate == None
      modifies this`fileIndex, this`curDate, this`handleOpen, this`fs, this`running
      ensures Valid()
      ensures handleOpen == openOk && running == openOk
      ensures !openOk ==> err == Some(OpenFailed) && unchanged(this)
      ensures openOk ==> err == None
      ensures sliceType == SliceTypeDate ==> DateStarted(old(fs), today, openOk)
      ensures sliceType == SliceTypeSize ==> SizeStarted(old(fs), old(fileIndex), openOk)
    {
      if !openOk {
        return Some(OpenFailed);
      }
      fs := OpenForAppend(fs, Primary());
      handleOpen := true;
      CheckSliceFile(today);
      if sliceType == SliceTypeDate {
        assert !After(today, today);
      }
      running := true;
      return None;
    }

    /** `inputData`: drop the entry when its level is below the minimum or outside
        the enumeration, otherwise format it and send it down the channel. */
    method InputData(lvl: int, timestamp: string, data: string)
      requires hasChannel
      modifies this`queue
      ensures queue == Enqueue(old(queue), level, prefix, lvl, timestamp, data)
    {
      if lvl < level || lvl < LevelAll || lvl > LevelFatal {
        return;
      }
      var line := FormatEntry(timestamp, lvl, prefix, data);
      queue := queue + [line];
    }

    /** `outputToFile`: append the bytes to the primary file through the open
        handle; without a handle nothing happens. */
    method OutputToFile(data: string)
      requires Valid()
      modifies this`fs
      ensures Valid()
      ensures handleOpen ==> fs == old(fs)[Primary() := old(fs)[Primary()] + data]
      ensures handleOpen ==> FileSize(fs, Primary()) == FileSize(old(fs), Primary()) + |data|
      ensures !handleOpen ==> fs == old(fs)
    {
      if !handleOpen {
        return;
      }
      FileSizeAppend(fs, Primary(), data);
      fs := fs[Primary() := fs[Primary()] + data];
    }

    /** `outputData`: echo the line to standard output when the console is on,
        then write it to the file. */
    method OutputData(data: string)
      requires Valid()
      modifies this`stdout, this`fs
      ensures Valid()
      ensures stdout == old(stdout) + (if console then [data] else [])
      ensures handleOpen ==> fs == old(fs)[Primary() := old(fs)[Primary()] + data]
      ensures !handleOpen ==> fs == old(fs)
    {
      if console {
        stdout := stdout + [data];
      }
      OutputToFile(data);
    }

    /** `outputDataWorker`, run for at most `steps` receives: each one takes the
        oldest pending line and outputs it. The worker stops early when the queue
        is empty, where the goroutine would block. It runs only once `init`
        has started it. */
    method OutputDataWorker(steps: nat)
      requires Valid() && running
      modifies this`queue, this`stdout, this`fs
      ensures Valid()
      ensures var n := if steps < |old(queue)| then steps else |old(queue)|;
        && queue == old(queue)[n..]
        && stdout == old(stdout) + (if console then old(queue)[..n] else [])
        && (handleOpen ==> fs == old(fs)[Primary() := old(fs)[Primary()] + Concat(old(queue)[..n])])
        && (!handleOpen ==> fs == old(fs))
    {
      ghost var path, pending := Primary(), old(queue);
      assert pending[..0] == [];
      if handleOpen {
        assert old(fs)[path] + "" == old(fs)[path];
        assert old(fs)[path := old(fs)[path] + ""] == old(fs);
      }
      var i := 0;
      while i < steps && |queue| > 0
        invariant Valid() && Primary() == path
        invariant 0 <= i <= steps && i <= |pending|
        invariant queue == pending[i..]
        invariant stdout == old(stdout) + (if console then pending[..i] else [])
        invariant handleOpen ==> fs == old(fs)[path := old(fs)[path] + Concat(pending[..i])]
        invariant !handleOpen ==> fs == old(fs)
        decreases steps - i
      {
        var data := queue[0];
        queue := queue[1..];
        assert pending[..i + 1] == pending[..i] + [data];
        ConcatSnoc(pending[..i], data);
        ghost var written := Concat(pending[..i]);
        ghost var before := fs;
        OutputData(data);
        if handleOpen {
          assert before[path] == old(fs)[path] + written;
          assert fs == before[path := before[path] + data];
          assert old(fs)[path] + written + data == old(fs)[path] + Concat(pending[..i + 1]);
        }
        i := i + 1;
      }
    }

    /** The outcome of one size check, from the state before it to this one:
        nothing changes unless a rotation is due; then the cursor advances, the
        primary file becomes archive `.<fileIndex>` (replacing its previous
        occupant), a new empty primary file is open and every other numbered
        archive is kept. */
    twostate predicate SizeChecked()
      requires 0 <= old(fileIndex) <= fileCount
      reads this
    {
      if SizeRotationDue(fileCount, fileSize, FileSize(old(fs), Primary())) then
        && fileIndex == NextIndex(old(fileIndex), fileCount)
        && handleOpen
        && fs == Archived(old(fs), Primary(), ArchiveName(Primary(), Itoa(fileIndex)))
        && (forall j: nat :: j != fileIndex ==> SameEntry(old(fs), fs, ArchiveName(Primary(), Itoa(j))))
      else
        unchanged(this)
    }

    /** The outcome of one date check on `today`, from the state before it to
        this one: nothing changes unless today is after the day being logged and
        that day's archive is missing; then the primary file moves to that
        archive, the day becomes today and a new empty primary file is open. */
    twostate predicate DateChecked(today: Date)
      requires old(curDate).Some? && ValidDate(old(curDate).value)
      reads this
    {
      var archive := ArchiveName(Primary(), FormatDate(old(curDate).value));
      if After(today, old(curDate).value) && archive !in old(fs) then
        curDate == Some(today) && handleOpen && fs == Archived(old(fs), Primary(), archive)
      else
        unchanged(this)
    }

    /** The outcome of one `checkSliceFile` on `today`: the configured policy's
        check, with the other policy's cursor untouched. */
    twostate predicate Checked(today: Date)
      requires sliceType == SliceTypeSize ==> 0 <= old(fileIndex) <= fileCount
      requires sliceType == SliceTypeDate ==> old(curDate).Some? && ValidDate(old(curDate).value)
      reads this
    {
      && (sliceType == SliceTypeSize ==> curDate == old(curDate) && SizeChecked())
      && (sliceType == SliceTypeDate ==> fileIndex == old(fileIndex) && DateChecked(today))
    }

    /** `sliceFileBySize`: nothing happens unless rotation is enabled and the
        primary file has reached the threshold; then the cursor advances, the
        primary file becomes archive `.<fileIndex>` (replacing its previous
        occupant) and a new empty primary file is opened. */
    method SliceFileBySize()
      requires Valid()
      modifies this`fileIndex, this`handleOpen, this`fs
      ensures Valid()
      ensures SizeChecked()
    {
      var filePath := Primary();
      if fileCount <= 1 {
        return;
      }
      var curSize := FileSize(fs, filePath);
      if curSize < fileSize {
        return;
      }
      fileIndex := fileIndex % fileCount + 1;
      assert fileIndex == NextIndex(old(fileIndex), fileCount);
      handleOpen := false;
      var logFileTemp := ArchiveName(filePath, Itoa(fileIndex));
      ArchiveNameInjective(filePath, Itoa(fileIndex), Itoa(fileIndex));
      if logFileTemp in fs {
        fs := fs - {logFileTemp};
      }
      assert fs == old(fs) - {logFileTemp};
      fs := Rename(fs, filePath, logFileTemp);
      fs := fs[filePath := ""];
      assert fs == Archived(old(fs), filePath, logFileTemp);
      handleOpen := true;
      OtherSlotsKept(old(fs), filePath, fileIndex);
    }

    /** `sliceFileByDate`: nothing happens unless today is after the day being
        logged and that day's archive does not exist yet; then the primary file
        becomes `.<YYYY-MM-DD>` of the day being logged, today becomes the day
        being logged and a new empty primary file is opened. */
    method SliceFileByDate(today: Date)
      requires Valid() && sliceType == SliceTypeDate && ValidDate(today)
      modifies this`curDate, this`handleOpen, this`fs
      ensures Valid()
      ensures DateChecked(today)
    {
      if !After(today, curDate.value) {
        return;
      }
      var filePath := Primary();
      var logFileTemp := ArchiveName(filePath, FormatDate(curDate.value));
      ArchiveNameInjective(filePath, FormatDate(curDate.value), FormatDate(curDate.value));
      if logFileTemp !in fs {
        handleOpen := false;
        fs := Rename(fs, filePath, logFileTemp);
        curDate := Some(today);
        fs := fs[filePath := ""];
        handleOpen := true;
        assert old(fs) - {logFileTemp} == old(fs);
        assert fs == Archived(old(fs), filePath, logFileTemp);
      }
    }

    /** `checkSliceFile`: apply the configured policy. */
    method CheckSliceFile(today: Date)
      requires Valid() && ValidDate(today)
      modifies this`fileIndex, this`curDate, this`handleOpen, this`fs
      ensures Valid()
      ensures Checked(today)
    {
      if sliceType == SliceTypeSize {
        SliceFileBySize();
      } else {
        SliceFileByDate(today);
      }
    }

    /** One tick of `sliceFileWorker`: every interval the running handler runs
        the rotation check. Before `init` has started it, no tick happens. */
    method SliceFileTick(today: Date)
      requires Valid() && running && ValidDate(today)
      modifies this`fileIndex, this`curDate, this`handleOpen, this`fs
      ensures Valid()
      ensures Checked(today)
    {
      CheckSliceFile(today);
    }
  }
}
