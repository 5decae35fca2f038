# logger: a verified model of the log handler

This project models the core of a small Go logging library. A `Logger`
object owns one `logHandler`. The handler works in four steps:

- it normalises a JSON configuration against defaults;
- it filters entries by level, formats them and queues them on a channel;
- a writer appends the queued lines to a primary log file;
- it rotates that file, either by size into `<file>.<n>` archives or by day
  into `<file>.<YYYY-MM-DD>` archives.

The model runs the handler sequentially over an abstract filesystem. That
filesystem is a map from path to contents, plus a flag that says whether a
handle on the primary file is open.

Modules:

- `Wrappers`: `Option`.
- `Levels`: the level and slice-type enumerations, the level filter, the level
  labels and the line layout.
- `Naming`: the decimal suffixes written by `strconv.Itoa`, the zero-padded
  `YYYY-MM-DD` suffix, and archive and primary paths. The two suffixes and
  the archive names come with proofs that they are unambiguous.
- `Files`: the filesystem operations the handler uses (stat size, rename,
  open for append, one archive rotation) and the concatenation of written
  lines.
- `Config`: the parsed configuration, the init errors, the per-key
  normalisation rules and the defaults.
- `Core`: the class `LogHandler`. Its fields are the handler's fields. Its
  methods are `validate`, the index scan and the rest of `init`, `inputData`,
  `outputData`/`outputToFile`, the writer loop, `checkSliceFile`,
  `sliceFileBySize`, `sliceFileByDate` and one tick of the rotation worker.
  Next to it are the specification functions they are proved against
  (`Enqueue`, `ScanFrom`, `NextIndex`, and `Archived` from `Files`) and
  lemmas about those functions. The outcome of one rotation check is stated
  once, as the two-state predicates `SizeChecked`, `DateChecked` and
  `Checked`.
- `Facade`: the class `Logger`, with its once-only `Init`, the per-level entry
  points and `NewLogger`. It also holds three complete runs: the level
  threshold, from any directory, and one size rotation and one date
  rotation, each starting from an empty directory.

The clock is a parameter: the timestamp string of each entry, and `today`
for the date checks. So is the outcome of the one open call whose failure
`init` reports (`openOk`).

Notes on behaviour:

- **Initial scan.** The scan over archive indices (core.go:65-71) moves the
  cursor onto every missing index and stops at the first existing one, so it
  ends on the *last* index of the leading run of missing archives. If `.0` exists, the cursor keeps its
  zero value. Starting from an empty directory with `fileCount` 2, the scan
  leaves the cursor at 1, and the first size rotation therefore writes `.2`,
  not `.1` (`Facade.SizeRotationRun`).
- **Date archive name.** The date policy names the archive after the day
  being logged (`curDate`), not after today.

## Model

| member | source | states |
|---|---|---|
| Levels.EnumerationsOrdered | log.go:6-29 | The levels All < Debug < Info < Warn < Error < Fatal are strictly ordered, and a slice type is valid exactly when it is Size (0) or Date (1) |
| Levels.Accepts | core.go:177-179 | The filter: an entry is kept unless its level is below the minimum or outside All..Fatal; `AcceptsIsThreshold` characterises it |
| Levels.LevelName | core.go:181-196 | Each level of the enumeration has the label of its own name; `LevelNameInjective` shows the labels are distinct |
| Levels.FormatEntry | core.go:180-197 | Every arm of the switch has the layout `<ts> [<label>]:<prefix><data>`; `FormatEntryInjective` shows a line determines its parts |
| Levels.AcceptsIsThreshold | core.go:177-179 | For levels inside the enumeration, an entry passes the filter iff its level is at least the minimum; whatever passes also passes at every higher level |
| Levels.LevelNameInjective | core.go:181-196 | The six labels differ pairwise, already in their first letter |
| Levels.FormatEntryInjective | core.go:180-197 | A formatted line `<ts> [<label>]:<prefix><data>` determines its timestamp (of a fixed length), its level and its text |
| Naming.Itoa | core.go:266 | The decimal suffix of an index is a non-empty string of digits, of at least two digits from 10 on |
| Naming.AtoiItoa | core.go:266 | Reading back the decimal suffix written for an archive index gives the index |
| Naming.ItoaInjective | core.go:266 | Different indices get different decimal suffixes |
| Naming.AtoiPad | core.go:241 | Reading back a zero-padded field of a date gives the number when it fits the width |
| Naming.FormatDate | core.go:241 | The suffix of a valid day has ten characters: four digits, `-`, two digits, `-`, two digits |
| Naming.FormatDateInjective | core.go:241 | Different valid days get different `YYYY-MM-DD` suffixes |
| Naming.After | core.go:237 | `tm.After(curDate)` on two midnights: a strictly later day |
| Naming.AfterIsStrictOrder | core.go:237 | No day is after itself, so a second check on the same day never rotates; the order is asymmetric, transitive and total on days |
| Naming.JoinPath | util.go:28-30 | The primary path is the directory, a separator and the file name, which can be read back from it |
| Naming.ArchiveName | core.go:266 | An archive name is the primary path followed by `.` and the suffix |
| Naming.ArchiveNameInjective | core.go:266 | An archive name never equals the primary path; two archives of one primary coincide only when their suffixes do |
| Naming.SizeArchivesDistinct | core.go:266 | Size archives with different indices are different files |
| Files.FileSize | util.go:32-38 | The model of `getFileSize`, with a missing file of size 0; `FileSizeAppend` and `FileSizeArchived` state how writes and rotations change it |
| Files.FileSizeAppend | core.go:215 | Appending to an existing file grows its size by exactly the length written |
| Files.FileSizeArchived | core.go:266-271 | After a rotation the primary file's size is 0 and the archive has the size the primary had |
| Files.Rename | core.go:270 | A rename moves the contents to the target, replacing what was there, and the source disappears; a missing source leaves every file as it was |
| Files.RenameKeepsOthers | core.go:270 | A rename leaves every other path as it was |
| Files.OpenForAppend | core.go:75 | After opening for append, the file exists with its old contents, or empty when it was missing |
| Files.OpenKeepsOthers | core.go:75 | Opening a file leaves every other path as it was |
| Files.Archived | core.go:266-271 | After a rotation the primary file exists and is empty; the archive exists iff the primary did, and then it holds the primary's old contents, whatever occupied the slot before |
| Files.ArchivedKeepsOthers | core.go:266-271 | A rotation leaves every path other than the primary and the archive as it was |
| Files.ArchivedLone | core.go:246-248 | Rotating a directory holding only the primary file leaves exactly an empty primary and the archive with the old contents |
| Files.Concat | core.go:215 | The bytes a sequence of lines leaves in the file, one write after another; `ConcatSnoc` shows each write extends it at the end |
| Files.ConcatSnoc | core.go:215 | Writing one more line extends the file's written bytes at the end by exactly that line |
| Config.InRangeOr | core.go:102-107 | A range-checked key (`sliceType`, `level`) keeps its value when present and in range, otherwise takes the default; the result is always in range |
| Config.AtLeastOr | core.go:137-142 | `fileCount` keeps its value when present and at least 1, otherwise takes the default; the result is always at least 1 |
| Core.Enqueue | core.go:176-198 | The queue grows by one iff the level passes the filter; the old entries stay in order in front; the new tail entry is the formatted line |
| Core.SizeRotationDue | core.go:255-261 | Size rotation fires exactly when more than one file is configured and the primary file has reached the threshold |
| Core.NextIndex | core.go:262 | `index % count + 1` always lies in 1..count; it advances by one below `count` and wraps from `count` to 1 |
| Core.ScanFrom | core.go:65-71 | The scan's result is either the initial cursor or an index scanned, below `fileCount` |
| Core.ScanFromFree | core.go:65-71 | Once the scan is inside a run of missing archives, it ends on the last missing index of that run, and the next index (if below `fileCount`) exists |
| Core.ScanIndexSpec | core.go:65-71 | If `.0` exists the cursor keeps its initial value; otherwise it is the largest `i < fileCount` such that none of `.0`..`.i` exists |
| Core.RotationStaysInRing | core.go:262-271 | Size rotation never creates archive `.0` or an archive above `fileCount`, when none existed before |
| Core.OtherSlotsKept | core.go:266-271 | A size rotation onto slot `i` leaves every other numbered archive as it was |
| Core.LogHandler.constructor | log.go:43 | A new handler has every configuration field at its zero value, cursor 0, no day, no channel, no handle, no workers and an empty queue |
| Core.LogHandler.Validate | core.go:89-151 | A malformed configuration is an error and nothing is assigned. Otherwise there is no error, and every key takes its value or its default under the source's range checks, so `level` and `sliceType` lie in their enumerations and `fileCount >= 1` |
| Core.LogHandler.InitIndex | core.go:65-71 | The loop leaves `fileIndex` equal to the scan function `ScanFrom`, whose result `ScanIndexSpec` characterises |
| Core.LogHandler.Init | core.go:47-86 | The result is an error iff the configuration is malformed or the open fails. A malformed configuration changes nothing. Otherwise the handler is configured, has a channel and an empty queue, and has the cursor of its policy. Its handle is open and its workers are started iff the open succeeded, and the files are those after the open and one rotation check |
| Core.LogHandler.Start | core.go:56-85 | After validation: the result is an error iff the open fails. The handler has a channel and an empty queue and the cursor of its policy; its handle is open and its workers started iff the open succeeded; the files are those after the open and one rotation check |
| Core.LogHandler.SetCursor | core.go:65-74 | The size policy's cursor is the scan's result `ScanFrom` and no day is set; the date policy logs today with the cursor at 0; either way the cursor lies in 0..fileCount |
| Core.LogHandler.OpenAndCheck | core.go:75-83 | A failed open changes nothing and reports the error. A successful one opens the primary file and runs one check: the size policy rotates iff a rotation is due, that is, the opened file is at the threshold and `fileCount` is above 1, and the date policy never rotates on the day it started; then the workers start |
| Core.LogHandler.InputData | core.go:176-198 | The queue becomes `Enqueue` of the old queue: unchanged for filtered levels, one formatted line at the tail otherwise |
| Core.LogHandler.OutputToFile | core.go:209-216 | With a handle open, the bytes are appended to the primary file unchanged and with no newline, so its size grows by their length; without a handle, every file stays as it was |
| Core.LogHandler.OutputData | core.go:201-206 | The line is echoed to standard output iff the console is on, and then written as by `outputToFile` |
| Core.LogHandler.OutputDataWorker | core.go:154-161 | Only runs once `init` started the workers. After n receives, the first n queued lines are consumed in queue order. Their concatenation is appended to the primary file if a handle is open, and they are echoed if the console is on |
| Core.LogHandler.SliceFileBySize | core.go:253-272 | Nothing changes when `fileCount <= 1` or the primary file is below the threshold. Otherwise the cursor becomes `old % fileCount + 1` and the primary's contents move to that slot, replacing its occupant. A new empty primary file is open, and every other numbered archive is kept |
| Core.LogHandler.SliceFileByDate | core.go:235-250 | Nothing changes unless today is after the day being logged and that day's archive is missing. Then the primary's contents move to that archive, the day becomes today, and a new empty primary file is open |
| Core.LogHandler.CheckSliceFile | core.go:224-232 | `Checked`: exactly the configured policy runs with its full outcome (`SizeChecked` or `DateChecked`, the same outcome as the policy's own method); the other policy's cursor is untouched |
| Core.LogHandler.SliceFileTick | core.go:164-173 | Only runs once `init` started the workers; each tick has the outcome `Checked` of one rotation check |
| Facade.Logger.constructor | log.go:32 | A new logger has no handler |
| Facade.Logger.Init | log.go:41-51 | Only the first call creates and initialises a handler, and it reports that initialisation's error: `BadConfig` for a malformed configuration, `OpenFailed` when the open fails, none otherwise. The handler stays assigned even when the initialisation fails, so every later call returns no error and changes nothing. After a malformed configuration the handler is left as allocated, with no channel |
| Facade.Logger.Log | log.go:53-61 | The caller's level is passed to `inputData` unchanged |
| Facade.Logger.Debug | log.go:63-71 | Debug entries go to `inputData` with level Debug |
| Facade.Logger.Info | log.go:73-81 | Info entries go to `inputData` with level Info |
| Facade.Logger.Warn | log.go:83-91 | Warn entries go to `inputData` with level Warn |
| Facade.Logger.Error | log.go:93-101 | Error entries go to `inputData` with level Error |
| Facade.Logger.Fatal | log.go:103-111 | Fatal entries go to `inputData` with level Fatal |
| Facade.NewLogger | log.go:31-35 | The logger is returned with a handler even when its initialisation reports an error; that error (`BadConfig` for a malformed configuration, `OpenFailed` when the open fails) and the handler's state are those of `Init`, including the unstarted handler of a malformed configuration |
| Facade.WarnThreshold | core.go:177-191 | With minimum level Warn, Debug and Info entries are dropped and an Error entry queues exactly `<ts> [Error]:<text>` |
| Facade.WriteOne | core.go:154-216 | Writing one accepted Info entry to an empty primary file leaves exactly that line in it and an empty queue |
| Facade.SizeRotationRun | core.go:253-272 | From an empty directory with two files of 100 bytes, one long line and one tick of the rotation worker leave an empty primary file and the line in archive `.2` |
| Facade.DateRotationRun | core.go:235-250 | From an empty directory, the first check on a later day moves the line to the first day's dated archive and leaves an empty primary file; a second check on that day changes nothing |

## Left out

- Goroutines, the mutex and the 180-second ticker: the writer and the rotation worker are separate sequential steps (`OutputDataWorker`, `SliceFileTick`) that a caller interleaves. Both require `running`, which `init` sets only after a successful open, as the workers start only then.
- The channel's capacity of 2048 and blocking sends: the queue is an unbounded sequence.
- Core.LogHandler.InputData: requires a channel. A handler whose `validate` failed has a nil channel, on which an accepted send blocks forever; that case is not modelled.
- Facade.Logger.Log: requires a handler (likewise `Debug` … `Fatal`). Calling these on a logger that was never initialised dereferences a nil handler.
- The `F` variants (`LogF`, `DebugF`, …) and `fmt.Sprint`/`Sprintf`: each entry point takes the already formatted text, so one method stands for both forms.
- JSON decoding: the configuration arrives parsed, as `Malformed` or as optional typed keys. A key of the wrong type is a missing key. Number conversions inside the JSON library are not modelled.
- The wall clock and the timestamp layout: the timestamp string and `today` are parameters. Both clock readings in `sliceFileByDate` are `today`.
- Dates are year, month and day with a four-digit year (0..9999). `After` compares them as days.
- Naming.JoinPath: plain concatenation with `/`; the path cleaning of `filepath.Join` is not modelled.
- `os.Mkdir` of the log directory is left out.
- Errors of `os.Rename`, `os.Remove` and `os.Create` during rotation are left out. Only the missing-source case of rename is modelled, as a no-op. Only the failure of the open call in `init` is modelled, through `openOk`.
- Closing and reopening a handle is modelled as the `handleOpen` flag.
- Files.FileSize: a Dafny `string` stands for the bytes of the Go string, one character per byte. Sizes, the threshold comparison and the written bytes count characters, so text outside ASCII is not measured in UTF-8 bytes.
- Console output: `stdout` records the echoed lines. The newline of `Println` is not modelled.
- `fileSize` is a `uint64`, modelled as a bounded natural (`Uint64`). File lengths are unbounded naturals, so the `uint64` conversion of a file's size is not modelled.
- The `OutputType` constants are left out, because the handler does not use them.
- The example programs are left out.
