/** The configuration the handler is initialised from. The JSON text is seen
    after parsing: either malformed, or an object whose keys each either hold
    a value of the expected type or not (missing or of another type). */
module Config {
  import opened Wrappers
  import Levels

  type Uint64 = n: nat | n < 0x1_0000_0000_0000_0000

  datatype RawConfig = RawConfig(
    console: Option<bool>,
    sliceType: Option<int>,
    prefix: Option<string>,
    level: Option<int>,
    fileDir: Option<string>,
    fileName: Option<string>,
    fileCount: Option<int>,
    fileSize: Option<Uint64>)

  datatype ConfigText = Malformed | Json(fields: RawConfig)

  /** Why `init` failed: the configuration did not parse, or the primary file
      could not be opened. */
  datatype InitError = BadConfig | OpenFailed

  /** A key checked against a range: its value when present and within
      [lo, hi], the default otherwise; either way the result lies in the range. */
  function InRangeOr(value: Option<int>, lo: int, hi: int, default: int): (r: int)
    requires lo <= default <= hi
    ensures lo <= r <= hi
    ensures value.Some? && lo <= value.value <= hi ==> r == value.value
    ensures !(value.Some? && lo <= value.value <= hi) ==> r == default
  {
    if value.Some? && value.value >= lo && value.value <= hi then value.value else default
  }

  /** A key checked against a lower bound: its value when present and at least
      lo, the default otherwise; either way the result is at least lo. */
  function AtLeastOr(value: Option<int>, lo: int, default: int): (r: int)
    requires lo <= default
    ensures lo <= r
    ensures value.Some? && lo <= value.value ==> r == value.value
    ensures !(value.Some? && lo <= value.value) ==> r == default
  {
    if value.Some? && value.value >= lo then value.value else default
  }

  // Defaults of the configuration keys (core.go:18-27).
  const DefaultConsole: bool := true
  const DefaultSliceType: int := 0
  const DefaultPrefix: string := ""
  const DefaultLevel: int := Levels.LevelInfo
  const DefaultFileDir: string := "./log"
  const DefaultFileName: string := "logfile.log"
  const DefaultFileCount: int := 3
  const DefaultFileSize: Uint64 := 1024 * 1024 * 3
}
