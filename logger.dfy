/** The public surface of log.go: the logger object holding its handler, the
    once-only initialisation and the per-level entry points, plus three runs of
    the whole pipeline that exercise the filter, the size policy and the date
    policy end to end. */
module Facade {
  import opened Wrappers
  import opened Levels
  import opened Naming
  import opened Files
  import opened Config
  import opened Core

  class Logger {
    var handler: LogHandler?

    /** `&Logger{}`: no handler yet. */
    constructor ()
      ensures handler == null
    {
      handler := null;
    }

    /** `Init`: only the first call creates a handler and initialises it. The
        handler is kept even when its initialisation fails, so a later call
        returns no error and does not try again. */
    method Init(config: ConfigText, files: FileSystem, today: Date, openOk: bool) returns (err: Option<InitError>)
      requires ValidDate(today)
      modifies this
      ensures old(handler) != null ==> err == None && unchanged(this)
      ensures old(handler) == null ==> handler != null && fresh(handler)
      ensures old(handler) == null ==> (err.Some? <==> config.Malformed? || !openOk)
      ensures old(handler) == null && config.Malformed? ==> err == Some(BadConfig)
      ensures old(handler) == null && config.Json? && !openOk ==> err == Some(OpenFailed)
      ensures old(handler) == null && config.Json? ==> handler.Initialised(config.fields, files, today, openOk)
      ensures old(handler) == null && config.Malformed? ==> handler.Unstarted() && handler.fs == files
    {
      if handler == null {
        handler := new LogHandler(files);
        var e := handler.Init(config, today, openOk);
        if e.Some? {
          return e;
        }
      }
      return None;
    }

    /** `Log` and `LogF`: the caller's level is passed through unchanged. */
    method Log(level: int, timestamp: string, data: string)
      requires handler != null && handler.hasChannel
      modifies handler`queue
      ensures handler.queue == Enqueue(old(handler.queue), handler.level, handler.prefix, level, timestamp, data)
    {
      handler.InputData(level, timestamp, data);
    }

    /** `Debug` and `DebugF`. */
    method Debug(timestamp: string, data: string)
      requires handler != null && handler.hasChannel
      modifies handler`queue
      ensures handler.queue == Enqueue(old(handler.queue), handler.level, handler.prefix, LevelDebug, timestamp, data)
    {
      handler.InputData(LevelDebug, timestamp, data);
    }

    /** `Info` and `InfoF`. */
    method Info(timestamp: string, data: string)
      requires handler != null && handler.hasChannel
      modifies handler`queue
      ensures handler.queue == Enqueue(old(handler.queue), handler.level, handler.prefix, LevelInfo, timestamp, data)
    {
      handler.InputData(LevelInfo, timestamp, data);
    }

    /** `Warn` and `WarnF`. */
    method Warn(timestamp: string, data: string)
      requires handler != null && handler.hasChannel
      modifies handler`queue
      ensures handler.queue == Enqueue(old(handler.queue), handler.level, handler.prefix, LevelWarn, timestamp, data)
    {
      handler.InputData(LevelWarn, timestamp, data);
    }

    /** `Error` and `ErrorF`. */
    method Error(timestamp: string, data: string)
      requires handler != null && handler.hasChannel
      modifies handler`queue
      ensures handler.queue == Enqueue(old(handler.queue), handler.level, handler.prefix, LevelError, timestamp, data)
    {
      handler.InputData(LevelError, timestamp, data);
    }

    /** `Fatal` and `FatalF`. */
    method Fatal(timestamp: string, data: string)
      requires handler != null && handler.hasChannel
      modifies handler`queue
      ensures handler.queue == Enqueue(old(handler.queue), handler.level, handler.prefix, LevelFatal, timestamp, data)
    {
      handler.InputData(LevelFatal, timestamp, data);
    }
  }

  /** `NewLogger`: the logger is returned together with the error of its
      initialisation, even when there is one. */
  method NewLogger(config: ConfigText, files: FileSystem, today: Date, openOk: bool)
    returns (logger: Logger, err: Option<InitError>)
    requires ValidDate(today)
    ensures fresh(logger) && logger.handler != null && fresh(logger.handler)
    ensures err.Some? <==> config.Malformed? || !openOk
    ensures config.Malformed? ==> err == Some(BadConfig)
    ensures config.Json? && !openOk ==> err == Some(OpenFailed)
    ensures config.Json? ==> logger.handler.Initialised(config.fields, files, today, openOk)
    ensures config.Malformed? ==> logger.handler.Unstarted() && logger.handler.fs == files
  {
    logger := new Logger();
    err := logger.Init(config, files, today, openOk);
  }

  /** A configuration with every key missing except the given ones. */
  function OnlyKeys(sliceType: Option<int>, level: Option<int>, fileCount: Option<int>, fileSize: Option<Uint64>): RawConfig {
    RawConfig(None, sliceType, None, level, None, None, fileCount, fileSize)
  }

  /** With minimum level Warn, Debug and Info produce nothing and Error
      produces exactly one line. */
  method WarnThreshold(files: FileSystem, today: Date, timestamp: string, text: string)
    returns (lines: seq<string>)
    requires ValidDate(today)
    ensures lines == [timestamp + " [Error]:" + text]
  {
    var logger, err := NewLogger(Json(OnlyKeys(None, Some(LevelWarn), None, None)), files, today, true);
    var h := logger.handler;
    assert h.level == LevelWarn && h.prefix == "";
    logger.Debug(timestamp, text);
    logger.Info(timestamp, text);
    assert h.queue == [];
    logger.Error(timestamp, text);
    assert h.queue == [FormatEntry(timestamp, LevelError, "", text)];
    assert FormatEntry(timestamp, LevelError, "", text) == timestamp + " [Error]:" + text;
    lines := h.queue;
  }

  /** The primary file under the default directory and name. */
  function DefaultPrimary(): string {
    JoinPath(DefaultFileDir, DefaultFileName)
  }

  /** A handler started with the given policy over an empty directory, on
      `today`, with the primary file opened; the one helper of the two runs below. */
  method StartEmpty(raw: RawConfig, today: Date) returns (h: LogHandler)
    requires ValidDate(today)
    requires raw.fileDir == None && raw.fileName == None && raw.level == None && raw.prefix == None
    ensures fresh(h) && h.Initialised(raw, map[], today, true)
    ensures h.Primary() == DefaultPrimary() && h.level == LevelInfo && h.prefix == ""
  {
    h := new LogHandler(map[]);
    var err := h.Init(Json(raw), today, true);
  }

  /** Appending one accepted line to an empty primary file, then running the
      writer once, leaves exactly that line in the file. */
  method WriteOne(h: LogHandler, timestamp: string, text: string)
    requires h.Valid() && h.handleOpen && h.running && h.queue == [] && h.fs == map[h.Primary() := ""]
    requires h.level == LevelInfo && h.prefix == ""
    modifies h`queue, h`stdout, h`fs
    ensures h.queue == [] && h.fs == map[h.Primary() := timestamp + " [Info]:" + text]
  {
    var line := FormatEntry(timestamp, LevelInfo, "", text);
    assert line == timestamp + " [Info]:" + text;
    h.InputData(LevelInfo, timestamp, text);
    assert h.queue == [line];
    h.OutputDataWorker(1);
    assert [line][..1] == [line] && Concat([line]) == line && "" + line == line;
    assert h.fs == map[h.Primary() := ""][h.Primary() := "" + line];
  }

  /** Two files of at most 100 bytes, starting from an empty directory: one
      line of at least 100 characters (bytes) is written and the next tick of
      the rotation worker rotates it. The initial scan leaves the cursor on the
      last free slot, 1, so the archive is `.2`, not `.1`. */
  method SizeRotationRun(today: Date, timestamp: string, text: string)
    returns (files: FileSystem)
    requires ValidDate(today) && |text| >= 100
    ensures files == map[
      DefaultPrimary() := "",
      ArchiveName(DefaultPrimary(), "2") := timestamp + " [Info]:" + text]
  {
    var primary := DefaultPrimary();
    assert Itoa(0) == "0" && Itoa(1) == "1" && Itoa(2) == "2";
    assert ScanFrom(map[], primary, 2, 0, 0) == 1;
    var h := StartEmpty(OnlyKeys(None, None, Some(2), Some(100)), today);
    WriteOne(h, timestamp, text);
    h.SliceFileTick(today);
    files := h.fs;
    ArchiveNameInjective(primary, "2", "2");
    ArchivedLone(primary, ArchiveName(primary, "2"), timestamp + " [Info]:" + text);
  }

  /** The date policy over two days, starting from an empty directory: the
      first check on the second day moves the first day's lines to the dated
      archive, and a second check on the same day changes nothing. */
  method DateRotationRun(day1: Date, day2: Date, timestamp: string, text: string)
    returns (afterFirst: FileSystem, afterSecond: FileSystem)
    requires ValidDate(day1) && ValidDate(day2) && After(day2, day1)
    ensures afterFirst == map[
      DefaultPrimary() := "",
      ArchiveName(DefaultPrimary(), FormatDate(day1)) := timestamp + " [Info]:" + text]
    ensures afterSecond == afterFirst
  {
    var primary := DefaultPrimary();
    var h := StartEmpty(OnlyKeys(Some(SliceTypeDate), None, None, None), day1);
    WriteOne(h, timestamp, text);
    var archive := ArchiveName(primary, FormatDate(day1));
    ArchiveNameInjective(primary, FormatDate(day1), FormatDate(day1));
    h.SliceFileTick(day2);
    afterFirst := h.fs;
    ArchivedLone(primary, archive, timestamp + " [Info]:" + text);
    h.SliceFileTick(day2);
    afterSecond := h.fs;
  }
}
